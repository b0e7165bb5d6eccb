/** The station layer of TransitDataService (getSubwayStationsData): every
    catalog station gets a travel-time estimate from the user, the resulting
    points are grouped by their rounded location, and each location keeps
    only its fastest point, in the order the locations were first seen. */
module StationReduction {
  import opened TransitTypes
  import opened TravelEstimator

  /** The rounded location of a point: both coordinates times 10^4, rounded.
      Two keys are equal exactly when the source's "lat,lng" key strings are. */
  datatype LocationKey = LocationKey(lat: int, lng: int)

  /** Math.round: the nearest integer, halves rounded up. */
  function Round(x: real): (n: int)
    ensures x - 0.5 < n as real <= x + 0.5
  {
    (x + 0.5).Floor
  }

  function KeyOf(p: TransitPoint): LocationKey
  {
    LocationKey(Round(p.latitude * 10000.0), Round(p.longitude * 10000.0))
  }

  /** The point of one catalog station: its own coordinates and the estimate from the user. */
  function StationPoint(user: Coord, s: Station, dist: Distance, d: Draws): TransitPoint
  {
    TransitPoint(s.latitude, s.longitude, EstimateTravelTime(user, At(s), dist, d))
  }

  /** The points of the whole catalog, station m estimated with draws rand(m). */
  function StationPoints(user: Coord, catalog: seq<Station>, dist: Distance, rand: Random): (ps: seq<TransitPoint>)
    ensures |ps| == |catalog|
  {
    seq(|catalog|, m requires 0 <= m < |catalog| => StationPoint(user, catalog[m], dist, rand(m)))
  }

  /** The keys of `ps` in first-seen order (the insertion order of the group map). */
  function KeyOrder(ps: seq<TransitPoint>): seq<LocationKey>
  {
    if |ps| == 0 then []
    else
      var order := KeyOrder(ps[..|ps| - 1]);
      var key := KeyOf(ps[|ps| - 1]);
      if key in order then order else order + [key]
  }

  /** The group map: each key holds its points in the order they were pushed. */
  function Groups(ps: seq<TransitPoint>): map<LocationKey, seq<TransitPoint>>
  {
    if |ps| == 0 then map[]
    else
      var groups := Groups(ps[..|ps| - 1]);
      var p := ps[|ps| - 1];
      var key := KeyOf(p);
      groups[key := (if key in groups then groups[key] else []) + [p]]
  }

  /** The reduce of one group: a later point replaces the fastest so far only
      when strictly faster. It is a point of the group and none is faster. */
  function Fastest(g: seq<TransitPoint>): (f: TransitPoint)
    requires |g| > 0
    ensures f in g
    ensures forall i :: 0 <= i < |g| ==> f.travelTime <= g[i].travelTime
  {
    if |g| == 1 then g[0]
    else
      var fastest := Fastest(g[..|g| - 1]);
      if g[|g| - 1].travelTime < fastest.travelTime then g[|g| - 1] else fastest
  }

  /** The second loop: for each key in order, the fastest point of its group
      (a missing or empty group contributes nothing). */
  function ReduceGroups(groups: map<LocationKey, seq<TransitPoint>>, order: seq<LocationKey>): seq<TransitPoint>
  {
    if |order| == 0 then []
    else
      var points := ReduceGroups(groups, order[..|order| - 1]);
      var key := order[|order| - 1];
      if key in groups && |groups[key]| > 0 then points + [Fastest(groups[key])] else points
  }

  function Reduced(ps: seq<TransitPoint>): seq<TransitPoint>
  {
    ReduceGroups(Groups(ps), KeyOrder(ps))
  }

  /** The snapshot getSubwayStationsData builds. */
  function SubwayStationsData(user: Coord, catalog: seq<Station>, dist: Distance, rand: Random, stamp: int): TransitData
  {
    TransitData(Reduced(StationPoints(user, catalog, dist, rand)), stamp)
  }

  /** Reference definition of a group: the points of `ps` with the given key, in order. */
  function PointsWithKey(ps: seq<TransitPoint>, key: LocationKey): (r: seq<TransitPoint>)
    ensures |r| <= |ps|
    ensures forall p :: p in r <==> p in ps && KeyOf(p) == key
  {
    if |ps| == 0 then []
    else (if KeyOf(ps[0]) == key then [ps[0]] else []) + PointsWithKey(ps[1..], key)
  }

  lemma {:induction false} PointsWithKeyAppend(ps: seq<TransitPoint>, p: TransitPoint, key: LocationKey)
    ensures PointsWithKey(ps + [p], key) == PointsWithKey(ps, key) + (if KeyOf(p) == key then [p] else [])
  {
    if |ps| > 0 {
      assert (ps + [p])[1..] == ps[1..] + [p];
      PointsWithKeyAppend(ps[1..], p, key);
    } else {
      assert ps + [p] == [p];
    }
  }

  /** The key order is no longer than the points. */
  lemma {:induction false} KeyOrderLength(ps: seq<TransitPoint>)
    ensures |KeyOrder(ps)| <= |ps|
  {
    if |ps| > 0 {
      KeyOrderLength(ps[..|ps| - 1]);
    }
  }

  /** The key order lists no key twice. */
  lemma {:induction false} KeyOrderDistinct(ps: seq<TransitPoint>)
    ensures forall i, j :: 0 <= i < j < |KeyOrder(ps)| ==> KeyOrder(ps)[i] != KeyOrder(ps)[j]
  {
    if |ps| > 0 {
      KeyOrderDistinct(ps[..|ps| - 1]);
    }
  }

  /** The key order and the group map have the same keys, and no group is empty. */
  lemma {:induction false} KeyOrderMatchesGroups(ps: seq<TransitPoint>, key: LocationKey)
    ensures key in KeyOrder(ps) <==> key in Groups(ps)
    ensures key in Groups(ps) ==> |Groups(ps)[key]| > 0
  {
    if |ps| > 0 {
      KeyOrderMatchesGroups(ps[..|ps| - 1], key);
    }
  }

  /** Each group of the map is the reference filter of `ps` by its key, and a
      key absent from the map has no point. */
  lemma {:induction false} GroupsAreFilters(ps: seq<TransitPoint>)
    ensures forall key :: key in Groups(ps) ==> Groups(ps)[key] == PointsWithKey(ps, key)
    ensures forall key :: key !in Groups(ps) ==> PointsWithKey(ps, key) == []
  {
    if |ps| > 0 {
      var pre := ps[..|ps| - 1];
      var p := ps[|ps| - 1];
      GroupsAreFilters(pre);
      assert ps == pre + [p];
      forall key
        ensures PointsWithKey(ps, key) == PointsWithKey(pre, key) + (if KeyOf(p) == key then [p] else [])
      {
        PointsWithKeyAppend(pre, p, key);
      }
    }
  }

  /** The keys of the first m points come first in the key order: locations
      are reported in the order they were first seen. */
  lemma {:induction false} KeyOrderPrefix(ps: seq<TransitPoint>, m: nat)
    requires m <= |ps|
    ensures KeyOrder(ps[..m]) <= KeyOrder(ps)
  {
    if m < |ps| {
      var pre := ps[..|ps| - 1];
      assert pre[..m] == ps[..m];
      KeyOrderPrefix(pre, m);
    } else {
      assert ps[..m] == ps;
    }
  }

  /** Ties go to the earliest point: the first point with the least time is the one kept. */
  lemma {:induction false} FastestIsFirstMinimum(g: seq<TransitPoint>, i: nat)
    requires i < |g|
    requires forall j :: 0 <= j < |g| ==> g[i].travelTime <= g[j].travelTime
    requires forall j :: 0 <= j < i ==> g[i].travelTime < g[j].travelTime
    ensures Fastest(g) == g[i]
  {
    if |g| > 1 {
      var pre := g[..|g| - 1];
      if i < |g| - 1 {
        FastestIsFirstMinimum(pre, i);
      } else {
        var f := Fastest(pre);
        var j :| 0 <= j < |pre| && pre[j] == f;
        assert g[j] == f;
      }
    }
  }

  /** When every listed key has a non-empty group, the reduction has one point
      per key, the fastest of that key's group. */
  lemma {:induction false} ReduceGroupsAt(groups: map<LocationKey, seq<TransitPoint>>, order: seq<LocationKey>)
    requires forall key :: key in order ==> key in groups && |groups[key]| > 0
    ensures |ReduceGroups(groups, order)| == |order|
    ensures forall i :: 0 <= i < |order| ==> ReduceGroups(groups, order)[i] == Fastest(groups[order[i]])
  {
    if |order| > 0 {
      var pre := order[..|order| - 1];
      assert forall key :: key in pre ==> key in order;
      ReduceGroupsAt(groups, pre);
    }
  }

  /** Every key of the key order has a group in the map, and that group is the
      (non-empty) reference filter of `ps` by the key. */
  lemma KeyOrderGroups(ps: seq<TransitPoint>)
    ensures forall key :: key in KeyOrder(ps) ==> key in Groups(ps) && |Groups(ps)[key]| > 0
    ensures forall key :: key in Groups(ps) ==> Groups(ps)[key] == PointsWithKey(ps, key)
  {
    forall key | key in KeyOrder(ps)
      ensures key in Groups(ps) && |Groups(ps)[key]| > 0
    {
      KeyOrderMatchesGroups(ps, key);
    }
    GroupsAreFilters(ps);
  }

  /** Point i of the reduction is the fastest point with the i-th key. */
  lemma ReducedAt(ps: seq<TransitPoint>)
    ensures |Reduced(ps)| == |KeyOrder(ps)|
    ensures forall i :: 0 <= i < |KeyOrder(ps)| ==> |PointsWithKey(ps, KeyOrder(ps)[i])| > 0
    ensures forall i :: 0 <= i < |KeyOrder(ps)| ==> Reduced(ps)[i] == Fastest(PointsWithKey(ps, KeyOrder(ps)[i]))
  {
    KeyOrderGroups(ps);
    ReduceGroupsAt(Groups(ps), KeyOrder(ps));
  }

  /** Every key of `ps` is in the key order. */
  lemma KeyOrderComplete(ps: seq<TransitPoint>, p: TransitPoint)
    requires p in ps
    ensures KeyOf(p) in KeyOrder(ps)
  {
    KeyOrderMatchesGroups(ps, KeyOf(p));
    GroupsAreFilters(ps);
    assert p in PointsWithKey(ps, KeyOf(p));
  }

  /** The reduction of `ps`: one point per distinct key, in first-seen key
      order, each a point of `ps` with that key and no slower than any other. */
  lemma ReducedIsGroupMinimum(ps: seq<TransitPoint>)
    ensures |Reduced(ps)| == |KeyOrder(ps)| <= |ps|
    ensures forall i :: 0 <= i < |Reduced(ps)| ==> KeyOf(Reduced(ps)[i]) == KeyOrder(ps)[i] && Reduced(ps)[i] in ps
    ensures forall i, j :: 0 <= i < j < |Reduced(ps)| ==> KeyOf(Reduced(ps)[i]) != KeyOf(Reduced(ps)[j])
    ensures forall p :: p in ps ==> exists i :: 0 <= i < |Reduced(ps)| && KeyOf(Reduced(ps)[i]) == KeyOf(p)
    ensures forall i, p :: 0 <= i < |Reduced(ps)| && p in ps && KeyOf(p) == KeyOf(Reduced(ps)[i]) ==>
              Reduced(ps)[i].travelTime <= p.travelTime
  {
    var order := KeyOrder(ps);
    var r := Reduced(ps);
    KeyOrderLength(ps);
    KeyOrderDistinct(ps);
    ReducedAt(ps);
    forall i | 0 <= i < |order|
      ensures KeyOf(r[i]) == order[i] && r[i] in ps
      ensures forall p :: p in ps && KeyOf(p) == order[i] ==> r[i].travelTime <= p.travelTime
    {
      var g := PointsWithKey(ps, order[i]);
      assert r[i] == Fastest(g) && Fastest(g) in g;
      forall p | p in ps && KeyOf(p) == order[i]
        ensures r[i].travelTime <= p.travelTime
      {
        assert p in g;
        var j :| 0 <= j < |g| && g[j] == p;
      }
    }
    forall p | p in ps
      ensures exists i :: 0 <= i < |r| && KeyOf(r[i]) == KeyOf(p)
    {
      KeyOrderComplete(ps, p);
      var i :| 0 <= i < |order| && order[i] == KeyOf(p);
      assert KeyOf(r[i]) == KeyOf(p);
    }
  }

  /** Ties go to the earliest station: among the points with the i-th key, the
      first one with the least time is the one kept. */
  lemma ReducedKeepsEarliestOfFastest(ps: seq<TransitPoint>, i: nat, j: nat)
    requires i < |KeyOrder(ps)|
    requires var g := PointsWithKey(ps, KeyOrder(ps)[i]);
             j < |g| &&
             (forall k :: 0 <= k < |g| ==> g[j].travelTime <= g[k].travelTime) &&
             (forall k :: 0 <= k < j ==> g[j].travelTime < g[k].travelTime)
    ensures |Reduced(ps)| == |KeyOrder(ps)|
    ensures Reduced(ps)[i] == PointsWithKey(ps, KeyOrder(ps)[i])[j]
  {
    ReducedAt(ps);
    FastestIsFirstMinimum(PointsWithKey(ps, KeyOrder(ps)[i]), j);
  }

  predicate DistinctKeys(ps: seq<TransitPoint>)
  {
    forall i, j :: 0 <= i < j < |ps| ==> KeyOf(ps[i]) != KeyOf(ps[j])
  }

  /** With distinct keys every group is a single point and the key order is the point order. */
  lemma {:induction false} DistinctKeysGroups(ps: seq<TransitPoint>)
    requires DistinctKeys(ps)
    ensures |KeyOrder(ps)| == |ps|
    ensures forall i :: 0 <= i < |ps| ==> KeyOrder(ps)[i] == KeyOf(ps[i])
    ensures forall i :: 0 <= i < |ps| ==> KeyOf(ps[i]) in Groups(ps) && Groups(ps)[KeyOf(ps[i])] == [ps[i]]
  {
    if |ps| > 0 {
      var pre := ps[..|ps| - 1];
      var p := ps[|ps| - 1];
      assert forall i :: 0 <= i < |pre| ==> ps[i] == pre[i];
      DistinctKeysGroups(pre);
      KeyOrderMatchesGroups(pre, KeyOf(p));
    }
  }

  /** When no two points share a rounded location the reduction changes nothing. */
  lemma DistinctKeysUnchanged(ps: seq<TransitPoint>)
    requires DistinctKeys(ps)
    ensures Reduced(ps) == ps
  {
    DistinctKeysGroups(ps);
    ReduceGroupsAt(Groups(ps), KeyOrder(ps));
  }

  /** The reduction only keeps points it was given. */
  lemma ReducedSubset(ps: seq<TransitPoint>)
    ensures |Reduced(ps)| <= |ps|
    ensures forall q :: q in Reduced(ps) ==> q in ps
  {
    ReducedAt(ps);
    KeyOrderLength(ps);
    forall q | q in Reduced(ps)
      ensures q in ps
    {
      var i :| 0 <= i < |Reduced(ps)| && Reduced(ps)[i] == q;
      var g := PointsWithKey(ps, KeyOrder(ps)[i]);
      assert q == Fastest(g) && Fastest(g) in g;
    }
  }

  /** getSubwayStationsData on the catalog: at most one point per station,
      every point at a catalog station's location with a time in [3, 90]. */
  lemma SubwayStationsBounds(user: Coord, catalog: seq<Station>, dist: Distance, rand: Random, stamp: int)
    ensures |SubwayStationsData(user, catalog, dist, rand, stamp).points| <= |catalog|
    ensures forall q :: q in SubwayStationsData(user, catalog, dist, rand, stamp).points ==>
              (exists s :: s in catalog && PointAt(q) == At(s)) && MIN_MINUTES <= q.travelTime <= MAX_MINUTES
  {
    var ps := StationPoints(user, catalog, dist, rand);
    ReducedSubset(ps);
    forall q | q in Reduced(ps)
      ensures (exists s :: s in catalog && PointAt(q) == At(s)) && MIN_MINUTES <= q.travelTime <= MAX_MINUTES
    {
      var m :| 0 <= m < |ps| && ps[m] == q;
      assert q == StationPoint(user, catalog[m], dist, rand(m));
      assert PointAt(q) == At(catalog[m]);
    }
  }

  /** One more point: its key's group gains it at the end, and the key joins
      the order if it is new. */
  lemma GroupsSnoc(ps: seq<TransitPoint>, m: nat)
    requires m < |ps|
    ensures var key, groups, order := KeyOf(ps[m]), Groups(ps[..m]), KeyOrder(ps[..m]);
            Groups(ps[..m + 1]) == groups[key := (if key in groups then groups[key] else []) + [ps[m]]] &&
            KeyOrder(ps[..m + 1]) == (if key in order then order else order + [key])
  {
    assert ps[..m + 1][..m] == ps[..m];
  }

  /** Push one point into the group of its key, creating the group, and so
      fixing the key's place in the order, on first sight. */
  method PushPoint(stationGroups: map<LocationKey, seq<TransitPoint>>, keyOrder: seq<LocationKey>, point: TransitPoint)
    returns (groups: map<LocationKey, seq<TransitPoint>>, order: seq<LocationKey>)
    requires KeyOf(point) in stationGroups <==> KeyOf(point) in keyOrder
    ensures var key := KeyOf(point);
            groups == stationGroups[key := (if key in stationGroups then stationGroups[key] else []) + [point]] &&
            order == (if key in keyOrder then keyOrder else keyOrder + [key])
  {
    var locationKey := KeyOf(point);
    groups, order := stationGroups, keyOrder;
    if locationKey !in groups {
      groups := groups[locationKey := []];
      order := order + [locationKey];
    }
    groups := groups[locationKey := groups[locationKey] + [point]];
  }

  /** The first loop of getSubwayStationsData: estimate every catalog
      station and push its point into the group of its rounded location. */
  method GroupStations(userLocation: Coord, catalog: seq<Station>, dist: Distance, rand: Random)
    returns (stationGroups: map<LocationKey, seq<TransitPoint>>, keyOrder: seq<LocationKey>)
    ensures stationGroups == Groups(StationPoints(userLocation, catalog, dist, rand))
    ensures keyOrder == KeyOrder(StationPoints(userLocation, catalog, dist, rand))
  {
    ghost var ps := StationPoints(userLocation, catalog, dist, rand);
    stationGroups := map[];
    keyOrder := [];  // the insertion order of stationGroups
    for m := 0 to |catalog|
      invariant stationGroups == Groups(ps[..m])
      invariant keyOrder == KeyOrder(ps[..m])
    {
      var station := catalog[m];
      var travelTime := EstimateTravelTime(userLocation, At(station), dist, rand(m));
      var point := TransitPoint(station.latitude, station.longitude, travelTime);
      assert ps[m] == point;
      GroupsSnoc(ps, m);
      KeyOrderMatchesGroups(ps[..m], KeyOf(point));
      stationGroups, keyOrder := PushPoint(stationGroups, keyOrder, point);
    }
    assert ps[..|catalog|] == ps;
  }

  /** The second loop of getSubwayStationsData: over the map's entries in
      insertion order, keep the fastest point of every non-empty group. */
  method ReduceStationGroups(stationGroups: map<LocationKey, seq<TransitPoint>>, keyOrder: seq<LocationKey>)
    returns (points: seq<TransitPoint>)
    requires forall key :: key in keyOrder ==> key in stationGroups
    ensures points == ReduceGroups(stationGroups, keyOrder)
  {
    points := [];
    for i := 0 to |keyOrder|
      invariant points == ReduceGroups(stationGroups, keyOrder[..i])
    {
      assert keyOrder[..i + 1][..i] == keyOrder[..i];
      var stationPoints := stationGroups[keyOrder[i]];
      if |stationPoints| > 0 {
        points := points + [Fastest(stationPoints)];
      }
    }
    assert keyOrder[..|keyOrder|] == keyOrder;
  }

  /** getSubwayStationsData: group the station points by rounded location,
      then keep the fastest point of every location. */
  method GetSubwayStationsData(userLocation: Coord, catalog: seq<Station>, dist: Distance, rand: Random, stamp: int)
    returns (data: TransitData)
    ensures data == SubwayStationsData(userLocation, catalog, dist, rand, stamp)
  {
    var stationGroups, keyOrder := GroupStations(userLocation, catalog, dist, rand);
    forall key | key in keyOrder
      ensures key in stationGroups
    {
      KeyOrderMatchesGroups(StationPoints(userLocation, catalog, dist, rand), key);
    }
    var points := ReduceStationGroups(stationGroups, keyOrder);
    data := TransitData(points, stamp);
  }
}
