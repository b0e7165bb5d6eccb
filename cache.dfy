/** The cache and live-data controller of TransitDataService (getTransitData,
    refreshData, setRefreshInterval, setLiveDataEnabled, getLiveDataEnabled).
    The clock is an integer millisecond reading passed in by the caller; a
    fresh snapshot is one of the two lattice builders. */
module TransitCache {
  import opened TransitTypes
  import opened TransitGrid

  /** Five minutes, in milliseconds. */
  const DEFAULT_REFRESH_INTERVAL_MS: real := 300000.0
  const MS_PER_MINUTE: real := 60000.0

  /** The refetch decision of getTransitData. With live data off, only a
      missing snapshot is fetched; with live data on, also a missing fetch
      time or one more than `interval` milliseconds before `now`. */
  function NeedsFetch(live: bool, hasCache: bool, lastFetchTime: Option<int>, now: int, interval: real): (fetch: bool)
    ensures !live ==> (fetch <==> !hasCache)
    ensures live ==> (fetch <==> !hasCache || lastFetchTime.None? || (now - lastFetchTime.value) as real > interval)
  {
    if !live then !hasCache
    else !hasCache || lastFetchTime.None? || (now - lastFetchTime.value) as real > interval
  }

  /** Staleness only grows with time: a snapshot that needs refetching at
      `now1` still does at any later `now2`. */
  lemma NeedsFetchMonotone(live: bool, hasCache: bool, lastFetchTime: Option<int>, now1: int, now2: int, interval: real)
    requires now1 <= now2 && NeedsFetch(live, hasCache, lastFetchTime, now1, interval)
    ensures NeedsFetch(live, hasCache, lastFetchTime, now2, interval)
  {
  }

  /** A snapshot fetched at `t` is reused exactly up to and including
      t + interval, and refetched after it. */
  lemma LiveReuseWindow(t: int, now: int, interval: real)
    ensures !NeedsFetch(true, true, Some(t), now, interval) <==> (now - t) as real <= interval
  {
  }

  /** fetchFreshData: the mock lattice when mock data is on, else the estimated lattice. */
  function FreshData(useMockData: bool, user: Coord, zoom: Option<int>, dist: Distance, rand: Random, stamp: int): TransitData
  {
    if useMockData then MockTransitData(user, zoom, dist, rand, stamp)
    else MTATransitData(user, zoom, dist, rand, stamp)
  }

  method FetchFreshData(useMockData: bool, user: Coord, zoom: Option<int>, dist: Distance, rand: Random, stamp: int)
    returns (data: TransitData)
    ensures data == FreshData(useMockData, user, zoom, dist, rand, stamp)
  {
    if useMockData {
      data := GetMockTransitData(user, zoom, dist, rand, stamp);
    } else {
      data := GetMTATransitData(user, zoom, dist, rand, stamp);
    }
  }

  class TransitDataService {
    /** Never changed after construction; the service uses the estimated lattice. */
    const useMockData: bool
    /** Milliseconds a live snapshot is reused. */
    var refreshInterval: real
    /** Clock reading of the last fetch (null in the source when absent). */
    var lastFetchTime: Option<int>
    var cachedData: Option<TransitData>
    var isLiveDataEnabled: bool

    /** A snapshot is held exactly when its fetch time is. */
    predicate Valid()
      reads this
    {
      cachedData.Some? <==> lastFetchTime.Some?
    }

    /** Whether getTransitData at clock `now` fetches a new snapshot. */
    predicate ShouldFetch(now: int)
      reads this
    {
      NeedsFetch(isLiveDataEnabled, cachedData.Some?, lastFetchTime, now, refreshInterval)
    }

    constructor()
      ensures Valid()
      ensures !useMockData && refreshInterval == DEFAULT_REFRESH_INTERVAL_MS && isLiveDataEnabled
      ensures cachedData == None && lastFetchTime == None
    {
      useMockData := false;
      refreshInterval := DEFAULT_REFRESH_INTERVAL_MS;
      lastFetchTime := None;
      cachedData := None;
      isLiveDataEnabled := true;
    }

    /** getTransitData: fetch, store and stamp a new snapshot when ShouldFetch
        says so; otherwise return the stored snapshot and change nothing. */
    method GetTransitData(userLocation: Coord, zoomLevel: Option<int>, now: int, dist: Distance, rand: Random, stamp: int)
      returns (data: TransitData)
      requires Valid()
      modifies this
      ensures Valid()
      ensures cachedData == Some(data)
      ensures refreshInterval == old(refreshInterval) && isLiveDataEnabled == old(isLiveDataEnabled)
      ensures old(ShouldFetch(now)) ==>
                data == FreshData(useMockData, userLocation, zoomLevel, dist, rand, stamp) && lastFetchTime == Some(now)
      ensures !old(ShouldFetch(now)) ==> data == old(cachedData).value && lastFetchTime == old(lastFetchTime)
    {
      if !isLiveDataEnabled {
        if cachedData.None? {
          var snapshot := FetchFreshData(useMockData, userLocation, zoomLevel, dist, rand, stamp);
          cachedData := Some(snapshot);
          lastFetchTime := Some(now);
        }
        return cachedData.value;
      }
      var shouldRefresh := cachedData.None? || lastFetchTime.None? ||
                           (now - lastFetchTime.value) as real > refreshInterval;
      if shouldRefresh {
        var snapshot := FetchFreshData(useMockData, userLocation, zoomLevel, dist, rand, stamp);
        cachedData := Some(snapshot);
        lastFetchTime := Some(now);
      }
      return cachedData.value;
    }

    /** refreshData: drop the snapshot and its fetch time, then getTransitData,
        which therefore always fetches, in either mode. */
    method RefreshData(userLocation: Coord, zoomLevel: Option<int>, now: int, dist: Distance, rand: Random, stamp: int)
      returns (data: TransitData)
      requires Valid()
      modifies this
      ensures Valid()
      ensures data == FreshData(useMockData, userLocation, zoomLevel, dist, rand, stamp)
      ensures cachedData == Some(data) && lastFetchTime == Some(now)
      ensures refreshInterval == old(refreshInterval) && isLiveDataEnabled == old(isLiveDataEnabled)
    {
      cachedData := None;
      lastFetchTime := None;
      data := GetTransitData(userLocation, zoomLevel, now, dist, rand, stamp);
    }

    /** setRefreshInterval: minutes to milliseconds; the snapshot is kept. */
    method SetRefreshInterval(minutes: real)
      modifies this
      ensures refreshInterval == minutes * MS_PER_MINUTE
      ensures cachedData == old(cachedData) && lastFetchTime == old(lastFetchTime)
      ensures isLiveDataEnabled == old(isLiveDataEnabled)
    {
      refreshInterval := minutes * 60.0 * 1000.0;
    }

    /** setLiveDataEnabled: only the flag changes. */
    method SetLiveDataEnabled(enabled: bool)
      modifies this
      ensures isLiveDataEnabled == enabled
      ensures cachedData == old(cachedData) && lastFetchTime == old(lastFetchTime)
      ensures refreshInterval == old(refreshInterval)
    {
      isLiveDataEnabled := enabled;
    }

    method GetLiveDataEnabled() returns (enabled: bool)
      ensures enabled == isLiveDataEnabled
    {
      enabled := isLiveDataEnabled;
    }
  }

  /** A fresh live service fetches on its first request, serves the same
      snapshot three minutes later, and fetches again six minutes after the
      first request. */
  method LiveRefreshScenario(user: Coord, zoom: Option<int>, t0: int, dist: Distance, rand: Random)
    returns (first: TransitData, second: TransitData, third: TransitData)
    ensures first == MTATransitData(user, zoom, dist, rand, 1)
    ensures second == first
    ensures third == MTATransitData(user, zoom, dist, rand, 3)
  {
    var service := new TransitDataService();
    first := service.GetTransitData(user, zoom, t0, dist, rand, 1);
    second := service.GetTransitData(user, zoom, t0 + 180000, dist, rand, 2);
    third := service.GetTransitData(user, zoom, t0 + 360000, dist, rand, 3);
  }

  /** With live data off, the first snapshot is served however long after it
      was fetched, until refreshData forces a new one. */
  method FrozenScenario(user: Coord, zoom: Option<int>, t0: int, dist: Distance, rand: Random)
    returns (first: TransitData, later: TransitData, refreshed: TransitData)
    ensures first == MTATransitData(user, zoom, dist, rand, 1)
    ensures later == first
    ensures refreshed == MTATransitData(user, zoom, dist, rand, 3)
  {
    var service := new TransitDataService();
    service.SetLiveDataEnabled(false);
    first := service.GetTransitData(user, zoom, t0, dist, rand, 1);
    later := service.GetTransitData(user, zoom, t0 + 100 * 60000, dist, rand, 2);
    refreshed := service.RefreshData(user, zoom, t0 + 100 * 60000, dist, rand, 3);
  }
}
