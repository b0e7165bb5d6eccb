/** The screen-level logic of App.tsx that feeds the data service: the
    zoom-to-density table and centre choice of fetchTransitData, and the zoom
    guard of handleRegionChange. React state is a class whose fields the
    setters assign. */
module TransitApp {
  import opened TransitTypes
  import opened Accessibility
  import opened StationReduction
  import opened TransitCache

  /** The zoom level the screen starts with. */
  const INITIAL_ZOOM: int := 12

  /** A map region: its centre and its span in degrees. */
  datatype Region = Region(latitude: real, longitude: real, latitudeDelta: real, longitudeDelta: real)

  /** The heatmap lattice size chosen from the screen's zoom level. */
  function GridDensity(zoomLevel: int): (n: nat)
    ensures n in {30, 40, 50, 60}
    ensures n == 30 <==> zoomLevel <= 10
    ensures n == 40 <==> 10 < zoomLevel <= 12
    ensures n == 50 <==> 12 < zoomLevel <= 14
    ensures n == 60 <==> zoomLevel > 14
  {
    if zoomLevel <= 10 then 30
    else if zoomLevel <= 12 then 40
    else if zoomLevel <= 14 then 50
    else 60
  }

  /** Zooming in never coarsens the heatmap. */
  lemma GridDensityMonotone(z1: int, z2: int)
    requires z1 <= z2
    ensures GridDensity(z1) <= GridDensity(z2)
  {
  }

  /** The heatmap centre: the recorded map region's centre, else the device location. */
  function HeatmapCenter(location: Coord, region: Option<Region>): (c: Coord)
    ensures region.Some? ==> c == Coord(region.value.latitude, region.value.longitude)
    ensures region.None? ==> c == location
  {
    match region
    case Some(r) => Coord(r.latitude, r.longitude)
    case None => location
  }

  /** What fetchTransitData asks the service for. */
  datatype Request =
    | HeatmapRequest(center: Coord, gridDensity: nat)
    | StationsRequest(location: Coord)

  /** fetchTransitData's choice: nothing without a device location; in heatmap
      mode the heatmap around HeatmapCenter at GridDensity(zoom); otherwise the
      stations around the device location, whatever the map region. */
  function PlanFetch(location: Option<Coord>, isHeatmapMode: bool, zoomLevel: int, region: Option<Region>): (r: Option<Request>)
    ensures r.None? <==> location.None?
    ensures location.Some? && isHeatmapMode ==>
              r == Some(HeatmapRequest(HeatmapCenter(location.value, region), GridDensity(zoomLevel)))
    ensures location.Some? && !isHeatmapMode ==> r == Some(StationsRequest(location.value))
  {
    if location.None? then None
    else if isHeatmapMode then Some(HeatmapRequest(HeatmapCenter(location.value, region), GridDensity(zoomLevel)))
    else Some(StationsRequest(location.value))
  }

  /** The stations request ignores the map region. */
  lemma StationsIgnoreRegion(location: Coord, zoomLevel: int, r1: Option<Region>, r2: Option<Region>)
    ensures PlanFetch(Some(location), false, zoomLevel, r1) == PlanFetch(Some(location), false, zoomLevel, r2)
  {
  }

  /** The snapshot the service returns for a request. */
  function Answer(req: Request, catalog: seq<Station>, dist: Distance, rand: Random, stamp: int): TransitData
  {
    match req
    case HeatmapRequest(center, gridDensity) => HeatmapData(center, catalog, dist, rand, stamp, gridDensity)
    case StationsRequest(location) => SubwayStationsData(location, catalog, dist, rand, stamp)
  }

  class App {
    var location: Option<Coord>
    var transitData: Option<TransitData>
    var isLiveDataEnabled: bool
    var zoomLevel: int
    var isHeatmapMode: bool
    var currentMapRegion: Option<Region>
    const transitService: TransitDataService

    constructor()
      ensures location == None && transitData == None && isLiveDataEnabled && !isHeatmapMode
      ensures zoomLevel == INITIAL_ZOOM && currentMapRegion == None
      ensures fresh(transitService) && transitService.Valid() && transitService.cachedData == None
    {
      location := None;
      transitData := None;
      isLiveDataEnabled := true;
      zoomLevel := INITIAL_ZOOM;
      isHeatmapMode := false;
      currentMapRegion := None;
      transitService := new TransitDataService();
    }

    /** handleRegionChange, with `zoom` the zoom level computed from the
        region's span: the zoom is stored only when it differs (the result
        says whether it was), and the region is always recorded. */
    method HandleRegionChange(region: Region, zoom: int) returns (zoomChanged: bool)
      modifies this
      ensures zoomChanged <==> zoom != old(zoomLevel)
      ensures zoomLevel == zoom && currentMapRegion == Some(region)
      ensures location == old(location) && transitData == old(transitData)
      ensures isLiveDataEnabled == old(isLiveDataEnabled) && isHeatmapMode == old(isHeatmapMode)
    {
      zoomChanged := false;
      if zoom != zoomLevel {
        zoomLevel := zoom;
        zoomChanged := true;
      }
      currentMapRegion := Some(region);
    }

    /** fetchTransitData: pass the live-data setting to the service, then ask
        it for the heatmap or the stations and store the answer. Neither
        request goes through the service's cache, which stays as it was. */
    method FetchTransitData(catalog: seq<Station>, dist: Distance, rand: Random, stamp: int)
      modifies this, transitService
      ensures var plan := PlanFetch(location, isHeatmapMode, zoomLevel, currentMapRegion);
              (plan.None? ==> transitData == old(transitData)) &&
              (plan.Some? ==> transitData == Some(Answer(plan.value, catalog, dist, rand, stamp)))
      ensures location == old(location) && zoomLevel == old(zoomLevel) && currentMapRegion == old(currentMapRegion)
      ensures isLiveDataEnabled == old(isLiveDataEnabled) && isHeatmapMode == old(isHeatmapMode)
      ensures location.Some? ==> transitService.isLiveDataEnabled == isLiveDataEnabled
      ensures location.None? ==> transitService.isLiveDataEnabled == old(transitService.isLiveDataEnabled)
      ensures transitService.cachedData == old(transitService.cachedData)
      ensures transitService.lastFetchTime == old(transitService.lastFetchTime)
      ensures transitService.refreshInterval == old(transitService.refreshInterval)
    {
      if location.None? {
        return;
      }
      transitService.SetLiveDataEnabled(isLiveDataEnabled);
      var data: TransitData;
      if isHeatmapMode {
        var gridDensity := GridDensity(zoomLevel);
        var heatmapCenter := HeatmapCenter(location.value, currentMapRegion);
        data := GetAccessibilityHeatmapData(heatmapCenter, catalog, dist, rand, stamp, gridDensity);
      } else {
        data := GetSubwayStationsData(location.value, catalog, dist, rand, stamp);
      }
      transitData := Some(data);
    }
  }
}
