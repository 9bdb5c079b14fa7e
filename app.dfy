/**
 * The client state of frontend/js/main.js (class UrbanMobilityApp): the
 * filter, sort and pagination fields, the response cache keyed by endpoint,
 * and the vendor-name map, with the handlers that move them.
 *
 * fetch is not called: every load takes the outcome fetch would have had as
 * a parameter. A request endpoint is kept as its path and its ordered query
 * parameters rather than as the encoded URL string; two endpoints are the
 * same cache key exactly when path and parameters agree.
 */
module MobilityApp {
  import opened Wrappers
  import opened Text
  import opened Hours
  import opened Payloads

  // ---------------------------------------------------------------- endpoints

  /** The query parameter names the front end sends. */
  datatype ParamName = Limit | Offset | VendorId | Search | StartDate | EndDate | SortBy | SortOrder

  /** The name as it appears in the URL. */
  function WireName(n: ParamName): string {
    match n
    case Limit => "limit"
    case Offset => "offset"
    case VendorId => "vendor_id"
    case Search => "search"
    case StartDate => "start_date"
    case EndDate => "end_date"
    case SortBy => "sort_by"
    case SortOrder => "sort_order"
  }

  datatype Param = Param(name: ParamName, value: string)

  datatype Endpoint = Endpoint(path: string, query: seq<Param>)

  /** The value of the first parameter called `name`, as URLSearchParams.get returns it. */
  function Lookup(query: seq<Param>, name: ParamName): (r: Option<string>)
    ensures r.Some? ==> Param(name, r.value) in query
    ensures r.None? ==> forall p | p in query :: p.name != name
  {
    if query == [] then None
    else if query[0].name == name then Some(query[0].value)
    else Lookup(query[1..], name)
  }

  lemma {:induction false} LookupAppend(a: seq<Param>, b: seq<Param>, name: ParamName)
    ensures Lookup(a + b, name) == if Lookup(a, name).Some? then Lookup(a, name) else Lookup(b, name)
  {
    if a == [] {
      assert a + b == b;
    } else {
      assert (a + b)[0] == a[0];
      assert (a + b)[1..] == a[1..] + b;
      LookupAppend(a[1..], b, name);
    }
  }

  /** `if (value) params.append(name, value)`. */
  function OptionalParam(name: ParamName, value: string): seq<Param> {
    if value != "" then [Param(name, value)] else []
  }

  lemma OptionalParamLookup(name: ParamName, value: string, other: ParamName)
    ensures Lookup(OptionalParam(name, value), name) == if value != "" then Some(value) else None
    ensures other != name ==> Lookup(OptionalParam(name, value), other) == None
  {}

  /** The row offset of a page: (page - 1) * size. */
  function PageOffset(page: int, size: int): (offset: int)
    ensures page >= 1 && size >= 0 ==> offset >= 0
  {
    (page - 1) * size
  }

  /** Each page starts where the previous one ended. */
  lemma OffsetAdvance(page: int, size: int)
    ensures PageOffset(page + 1, size) == PageOffset(page, size) + size
  {}

  // ---------------------------------------------------------------- state

  datatype Filters = Filters(vendor: string, location: string, search: string, startDate: string, endDate: string)

  const NoFilters := Filters("", "", "", "", "")

  /** A snapshot of every field of UrbanMobilityApp the model keeps. */
  datatype AppState = AppState(
    currentSection: string,
    currentPage: int,
    pageSize: int,
    locationsCurrentPage: int,
    locationsPageSize: int,
    sortField: Option<string>,
    sortDirection: string,
    filters: Filters,
    cache: map<Endpoint, Body>,
    vendorMap: map<string, string>)

  const InitialState := AppState("dashboard", 1, 10, 1, 12, None, "desc", NoFilters, map[], map[])

  /** The value a parameter carries when it is sent: only a non-empty string is. */
  function NonEmpty(value: string): (r: Option<string>)
    ensures r.Some? <==> value != ""
    ensures r.Some? ==> r.value == value
  {
    if value != "" then Some(value) else None
  }

  function PagingParams(page: int, size: int): seq<Param> {
    [Param(Limit, IntToString(size)), Param(Offset, IntToString(PageOffset(page, size)))]
  }

  function FilterParams(f: Filters): seq<Param> {
    OptionalParam(VendorId, f.vendor) + OptionalParam(Search, f.search)
      + OptionalParam(StartDate, f.startDate) + OptionalParam(EndDate, f.endDate)
  }

  function SortParams(sortField: Option<string>, sortDirection: string): seq<Param> {
    if Truthy(sortField) then [Param(SortBy, sortField.value), Param(SortOrder, sortDirection)] else []
  }

  /** The /trips request of loadTrips: paging first, then the non-empty filters, then sorting. */
  function TripsEndpoint(s: AppState): (e: Endpoint)
    ensures e.path == "/trips"
  {
    Endpoint("/trips",
      PagingParams(s.currentPage, s.pageSize) + FilterParams(s.filters) + SortParams(s.sortField, s.sortDirection))
  }

  /**
   * What each parameter of the /trips request should carry: limit and offset
   * always, each filter exactly when it is non-empty, and sort_by with
   * sort_order together exactly when a sort field is set.
   */
  function TripsParam(s: AppState, name: ParamName): Option<string> {
    match name
    case Limit => Some(IntToString(s.pageSize))
    case Offset => Some(IntToString(PageOffset(s.currentPage, s.pageSize)))
    case VendorId => NonEmpty(s.filters.vendor)
    case Search => NonEmpty(s.filters.search)
    case StartDate => NonEmpty(s.filters.startDate)
    case EndDate => NonEmpty(s.filters.endDate)
    case SortBy => if Truthy(s.sortField) then Some(s.sortField.value) else None
    case SortOrder => if Truthy(s.sortField) then Some(s.sortDirection) else None
  }

  lemma FilterParamsLookup(f: Filters, name: ParamName)
    ensures Lookup(FilterParams(f), name) ==
      match name
      case VendorId => NonEmpty(f.vendor)
      case Search => NonEmpty(f.search)
      case StartDate => NonEmpty(f.startDate)
      case EndDate => NonEmpty(f.endDate)
      case _ => None
  {
    var v, se, sd, ed := OptionalParam(VendorId, f.vendor), OptionalParam(Search, f.search),
      OptionalParam(StartDate, f.startDate), OptionalParam(EndDate, f.endDate);
    LookupAppend(v, se, name);
    LookupAppend(v + se, sd, name);
    LookupAppend(v + se + sd, ed, name);
  }

  /** Every parameter of the /trips request carries exactly what TripsParam says. */
  lemma TripsEndpointParams(s: AppState, name: ParamName)
    ensures Lookup(TripsEndpoint(s).query, name) == TripsParam(s, name)
  {
    var paging := PagingParams(s.currentPage, s.pageSize);
    var filters := FilterParams(s.filters);
    var sorting := SortParams(s.sortField, s.sortDirection);
    LookupAppend(paging, filters, name);
    LookupAppend(paging + filters, sorting, name);
    FilterParamsLookup(s.filters, name);
  }

  /** The /locations request of loadLocations. */
  function LocationsEndpoint(s: AppState): (e: Endpoint)
    ensures Lookup(e.query, Limit) == Some(IntToString(s.locationsPageSize))
    ensures Lookup(e.query, Offset) == Some(IntToString(PageOffset(s.locationsCurrentPage, s.locationsPageSize)))
  {
    Endpoint("/locations",
      [Param(Limit, IntToString(s.locationsPageSize)),
       Param(Offset, IntToString(PageOffset(s.locationsCurrentPage, s.locationsPageSize)))])
  }

  /** The start_date/end_date parameters the dashboard requests carry. */
  function DateParams(f: Filters): seq<Param> {
    OptionalParam(StartDate, f.startDate) + OptionalParam(EndDate, f.endDate)
  }

  function OverviewEndpoint(f: Filters): Endpoint { Endpoint("/insights/overview", DateParams(f)) }

  function SummaryEndpoint(f: Filters): Endpoint { Endpoint("/trips/summary", DateParams(f)) }

  const VendorsEndpoint := Endpoint("/vendors", [])

  /**
   * `/trips?limit=1000` followed by the date filters: the trip-volume request
   * of the charts and the peak-hour request of loadAnalytics.
   */
  function TripVolumeEndpoint(f: Filters): Endpoint {
    Endpoint("/trips", [Param(Limit, "1000")] + DateParams(f))
  }

  /** `/insights/top-vendors?limit=8` followed by the date filters. */
  function TopVendorsEndpoint(f: Filters): Endpoint {
    Endpoint("/insights/top-vendors", [Param(Limit, "8")] + DateParams(f))
  }

  /** The three unfiltered requests of the advanced charts. */
  const ScatterTripsEndpoint := Endpoint("/trips", [Param(Limit, "1000")])
  const BoroughLocationsEndpoint := Endpoint("/locations", [Param(Limit, "300")])
  const RevenueVendorsEndpoint := Endpoint("/insights/top-vendors", [Param(Limit, "10")])

  /** Every request the dashboard makes under the filters f. */
  function DashboardEndpoints(f: Filters): set<Endpoint> {
    {OverviewEndpoint(f), SummaryEndpoint(f), TripVolumeEndpoint(f), TopVendorsEndpoint(f)}
  }

  /** Every request a refresh from state s can make. */
  function RefreshEndpoints(s: AppState): set<Endpoint> {
    DashboardEndpoints(s.filters)
      + {VendorsEndpoint, LocationsEndpoint(s), TripsEndpoint(s)}
      + {ScatterTripsEndpoint, BoroughLocationsEndpoint, RevenueVendorsEndpoint}
  }

  // ---------------------------------------------------------------- the cache

  /** What fetch would do: a response (ok flag, status, decoded body or None if not JSON) or a network failure. */
  datatype FetchOutcome =
    | Response(ok: bool, status: int, statusText: string, json: Option<Body>)
    | NetworkFailure

  /** The error apiCall throws. */
  datatype ApiError = HttpError(status: int, statusText: string) | InvalidJson | NetworkError

  /** The value apiCall resolves to, or the error it throws. */
  function ApiResult(cache: map<Endpoint, Body>, endpoint: Endpoint, outcome: FetchOutcome): Result<Body, ApiError> {
    if endpoint in cache then Ok(cache[endpoint])
    else match outcome
      case NetworkFailure => Err(NetworkError)
      case Response(ok, status, statusText, json) =>
        if !ok then Err(HttpError(status, statusText))
        else if json.None? then Err(InvalidJson)
        else Ok(json.value)
  }

  /** The cache after apiCall: a fresh body is stored under exactly its endpoint, nothing else changes. */
  function CacheAfter(cache: map<Endpoint, Body>, endpoint: Endpoint, outcome: FetchOutcome): map<Endpoint, Body> {
    var r := ApiResult(cache, endpoint, outcome);
    if endpoint !in cache && r.Ok? then cache[endpoint := r.value] else cache
  }

  /** `later` keeps every entry of `earlier`. */
  ghost predicate Extends(earlier: map<Endpoint, Body>, later: map<Endpoint, Body>) {
    forall e | e in earlier :: e in later && later[e] == earlier[e]
  }

  /**
   * apiCall only adds: it keeps every cached entry, adds at most the requested
   * endpoint, and adds it exactly when the call succeeds without a hit.
   */
  lemma ApiCallOnlyAdds(cache: map<Endpoint, Body>, endpoint: Endpoint, outcome: FetchOutcome)
    ensures var after := CacheAfter(cache, endpoint, outcome);
      && Extends(cache, after)
      && after.Keys <= cache.Keys + {endpoint}
      && (endpoint in after <==> endpoint in cache || ApiResult(cache, endpoint, outcome).Ok?)
      && (ApiResult(cache, endpoint, outcome).Err? ==> after == cache)
  {}

  /**
   * Memoisation: once a call has succeeded, the next call for the same
   * endpoint answers the same value whatever fetch would do.
   */
  lemma ApiCallMemoises(cache: map<Endpoint, Body>, endpoint: Endpoint, first: FetchOutcome, second: FetchOutcome)
    requires ApiResult(cache, endpoint, first).Ok?
    ensures var after := CacheAfter(cache, endpoint, first);
      && ApiResult(after, endpoint, second) == ApiResult(cache, endpoint, first)
      && CacheAfter(after, endpoint, second) == after
  {}

  /** Requests do not interfere: a call for one endpoint leaves the answer for every other endpoint as it was. */
  lemma ApiCallIndependent(cache: map<Endpoint, Body>, endpoint: Endpoint, outcome: FetchOutcome, other: Endpoint, otherOutcome: FetchOutcome)
    requires other != endpoint
    ensures ApiResult(CacheAfter(cache, endpoint, outcome), other, otherOutcome) == ApiResult(cache, other, otherOutcome)
  {}

  // ---------------------------------------------------------------- the vendor map

  /** vendorMap after `vendors.forEach(v => vendorMap.set(v.vendor_id, v.vendor_name || v.vendor_id))`. */
  function Remembered(m: map<string, string>, vendors: seq<VendorRow>): map<string, string> {
    if vendors == [] then m
    else
      var v := vendors[|vendors| - 1];
      Remembered(m, vendors[..|vendors| - 1])[v.vendorId := OrElse(v.vendorName, v.vendorId)]
  }

  /**
   * After loadVendors each listed id maps to the name of its last row (or to
   * the id when that row has no name); ids not listed keep their entry.
   */
  lemma {:induction false} RememberedLookup(m: map<string, string>, vendors: seq<VendorRow>, id: string)
    ensures var r := Remembered(m, vendors);
      && (id in r <==> id in m || exists v | v in vendors :: v.vendorId == id)
      && ((forall v | v in vendors :: v.vendorId != id) ==> id in m ==> r[id] == m[id])
      && (forall i | 0 <= i < |vendors| && vendors[i].vendorId == id &&
            (forall j | i < j < |vendors| :: vendors[j].vendorId != id) ::
            r[id] == OrElse(vendors[i].vendorName, id))
    decreases |vendors|
  {
    if vendors != [] {
      var init := vendors[..|vendors| - 1];
      RememberedLookup(m, init, id);
      assert forall v | v in init :: v in vendors;
      assert vendors == init + [vendors[|vendors| - 1]];
    }
  }

  /** getVendorName: the remembered name if there is a non-empty one, otherwise the id itself. */
  function VendorName(vendorMap: map<string, string>, vendorId: string): (name: string)
    ensures vendorId in vendorMap && vendorMap[vendorId] != "" ==> name == vendorMap[vendorId]
    ensures vendorId !in vendorMap || vendorMap[vendorId] == "" ==> name == vendorId
  {
    if vendorId in vendorMap && vendorMap[vendorId] != "" then vendorMap[vendorId] else vendorId
  }

  /** After loadVendors a listed vendor's name is its last row's name, or its id when that row has none. */
  lemma VendorNameAfterLoad(m: map<string, string>, vendors: seq<VendorRow>, i: nat)
    requires i < |vendors|
    requires forall j | i < j < |vendors| :: vendors[j].vendorId != vendors[i].vendorId
    ensures VendorName(Remembered(m, vendors), vendors[i].vendorId) == OrElse(vendors[i].vendorName, vendors[i].vendorId)
  {
    RememberedLookup(m, vendors, vendors[i].vendorId);
  }

  /** `vendors.map(v => ({...v, vendor_name: app.getVendorName(v.vendor_id)}))`. */
  function NamedVendors(vendorMap: map<string, string>, vendors: seq<VendorRow>): (named: seq<VendorRow>)
    ensures |named| == |vendors|
    ensures forall i | 0 <= i < |vendors| ::
      named[i] == vendors[i].(vendorName := Some(VendorName(vendorMap, vendors[i].vendorId)))
  {
    seq(|vendors|, i requires 0 <= i < |vendors| =>
      vendors[i].(vendorName := Some(VendorName(vendorMap, vendors[i].vendorId))))
  }

  // ---------------------------------------------------------------- loads made of several requests

  /** A fetch that answers ok with a JSON body. */
  predicate Succeeds(outcome: FetchOutcome) {
    outcome.Response? && outcome.ok && outcome.json.Some?
  }

  /** What fetch does for the two requests of `visualizer.updateCharts()`. */
  datatype ChartFetches = ChartFetches(tripVolume: FetchOutcome, topVendors: FetchOutcome)

  /** The cache after updateCharts: the trip-volume request, then the top-vendors request. */
  function ChartsCache(cache: map<Endpoint, Body>, f: Filters, c: ChartFetches): map<Endpoint, Body> {
    CacheAfter(CacheAfter(cache, TripVolumeEndpoint(f), c.tripVolume), TopVendorsEndpoint(f), c.topVendors)
  }

  /** What fetch does for loadDashboardMetrics: its two requests and the updateCharts it ends with. */
  datatype MetricsFetches = MetricsFetches(overview: FetchOutcome, summary: FetchOutcome, charts: ChartFetches)

  /**
   * Both metric requests resolve to something other than null, so reading
   * their fields does not throw and loadDashboardMetrics reaches its
   * updateCharts.
   */
  predicate MetricsResolved(cache: map<Endpoint, Body>, f: Filters, m: MetricsFetches) {
    var overview := ApiResult(cache, OverviewEndpoint(f), m.overview);
    var summary := ApiResult(CacheAfter(cache, OverviewEndpoint(f), m.overview), SummaryEndpoint(f), m.summary);
    overview.Ok? && !overview.value.Null? && summary.Ok? && !summary.value.Null?
  }

  /** The cache after loadDashboardMetrics; a failed metric request skips the chart reload. */
  function MetricsCache(cache: map<Endpoint, Body>, f: Filters, m: MetricsFetches): map<Endpoint, Body> {
    var metrics := CacheAfter(CacheAfter(cache, OverviewEndpoint(f), m.overview), SummaryEndpoint(f), m.summary);
    if MetricsResolved(cache, f, m) then ChartsCache(metrics, f, m.charts) else metrics
  }

  /** What fetch does for the three requests of `advancedVisualizer.initializeAllCharts()`. */
  datatype AdvancedFetches = AdvancedFetches(scatter: FetchOutcome, boroughs: FetchOutcome, revenue: FetchOutcome)

  /** The cache after initializeAllCharts: each renderer catches its own failure, so all three requests are made. */
  function AdvancedCache(cache: map<Endpoint, Body>, a: AdvancedFetches): map<Endpoint, Body> {
    CacheAfter(CacheAfter(CacheAfter(cache, ScatterTripsEndpoint, a.scatter), BoroughLocationsEndpoint, a.boroughs),
      RevenueVendorsEndpoint, a.revenue)
  }

  /** What fetch does for loadAnalytics: the summary, the peak-hour trips and the advanced charts. */
  datatype AnalyticsFetches = AnalyticsFetches(summary: FetchOutcome, peakTrips: FetchOutcome, advanced: AdvancedFetches)

  /**
   * The cache after loadAnalytics. A failed summary request ends it; the
   * peak-hour trips are requested only when the summary is truthy and the
   * page shows a peak hour, and a failure there ends it too; otherwise the
   * advanced charts are loaded.
   */
  function AnalyticsCache(cache: map<Endpoint, Body>, f: Filters, a: AnalyticsFetches, peakHourShown: bool): map<Endpoint, Body> {
    var summary := ApiResult(cache, SummaryEndpoint(f), a.summary);
    var summarised := CacheAfter(cache, SummaryEndpoint(f), a.summary);
    if summary.Err? then summarised
    else if !BodyTruthy(summary.value) || !peakHourShown then AdvancedCache(summarised, a.advanced)
    else if ApiResult(summarised, TripVolumeEndpoint(f), a.peakTrips).Err? then
      CacheAfter(summarised, TripVolumeEndpoint(f), a.peakTrips)
    else AdvancedCache(CacheAfter(summarised, TripVolumeEndpoint(f), a.peakTrips), a.advanced)
  }

  /**
   * `if (summary)`: a summary that answers null, false, 0 or '' skips the
   * peak-hour block, so the peak-hour trips are never requested and the
   * advanced charts are loaded whatever the page shows.
   */
  lemma FalsySummarySkipsPeakHour(cache: map<Endpoint, Body>, f: Filters, a: AnalyticsFetches, peakHourShown: bool)
    requires ApiResult(cache, SummaryEndpoint(f), a.summary).Ok?
    requires !BodyTruthy(ApiResult(cache, SummaryEndpoint(f), a.summary).value)
    ensures AnalyticsCache(cache, f, a, peakHourShown) == AdvancedCache(CacheAfter(cache, SummaryEndpoint(f), a.summary), a.advanced)
  {}

  /** The state after loadVendors: the cache, and the vendor map when a vendor list arrives. */
  function VendorsLoaded(s: AppState, outcome: FetchOutcome): AppState {
    var r := ApiResult(s.cache, VendorsEndpoint, outcome);
    var cached := s.(cache := CacheAfter(s.cache, VendorsEndpoint, outcome));
    if r.Ok? && r.value.VendorList? then cached.(vendorMap := Remembered(s.vendorMap, r.value.vendors)) else cached
  }

  /** What fetch does for loadInitialData's four loads. */
  datatype InitialFetches = InitialFetches(metrics: MetricsFetches, vendors: FetchOutcome, locations: FetchOutcome, trips: FetchOutcome)

  /** The state after loadInitialData: the dashboard metrics, the vendors, the locations page and the trips page. */
  function InitialDataLoaded(s: AppState, i: InitialFetches): AppState {
    var metrics := s.(cache := MetricsCache(s.cache, s.filters, i.metrics));
    var vendors := VendorsLoaded(metrics, i.vendors);
    var locations := vendors.(cache := CacheAfter(vendors.cache, LocationsEndpoint(vendors), i.locations));
    locations.(cache := CacheAfter(locations.cache, TripsEndpoint(locations), i.trips))
  }

  /** The cache after a dashboard date change: emptied, then the metrics and the charts under the new dates. */
  function DashboardRefetched(f: Filters, m: MetricsFetches, c: ChartFetches): map<Endpoint, Body> {
    ChartsCache(MetricsCache(map[], f, m), f, c)
  }

  /** What fetch does for every request of refreshData. */
  datatype RefreshFetches = RefreshFetches(
    initial: InitialFetches,
    dashboard: MetricsFetches,
    analytics: AnalyticsFetches,
    charts: ChartFetches,
    advanced: AdvancedFetches)

  /**
   * The state after refreshData: empty the cache, load the initial data,
   * reload the current section (analytics or dashboard), update the charts,
   * and on the analytics section load the advanced charts once more.
   */
  function Refreshed(s: AppState, r: RefreshFetches, peakHourShown: bool): AppState {
    var initial := InitialDataLoaded(s.(cache := map[]), r.initial);
    var section :=
      if s.currentSection == "analytics" then initial.(cache := AnalyticsCache(initial.cache, s.filters, r.analytics, peakHourShown))
      else if s.currentSection == "dashboard" then initial.(cache := MetricsCache(initial.cache, s.filters, r.dashboard))
      else initial;
    var charts := section.(cache := ChartsCache(section.cache, s.filters, r.charts));
    if s.currentSection == "analytics" then charts.(cache := AdvancedCache(charts.cache, r.advanced)) else charts
  }

  lemma ChartsCacheKeys(cache: map<Endpoint, Body>, f: Filters, c: ChartFetches)
    ensures Extends(cache, ChartsCache(cache, f, c))
    ensures ChartsCache(cache, f, c).Keys <= cache.Keys + {TripVolumeEndpoint(f), TopVendorsEndpoint(f)}
    ensures Succeeds(c.tripVolume) ==> TripVolumeEndpoint(f) in ChartsCache(cache, f, c)
    ensures Succeeds(c.topVendors) ==> TopVendorsEndpoint(f) in ChartsCache(cache, f, c)
  {
    var e1, e2 := TripVolumeEndpoint(f), TopVendorsEndpoint(f);
    ApiCallOnlyAdds(cache, e1, c.tripVolume);
    ApiCallOnlyAdds(CacheAfter(cache, e1, c.tripVolume), e2, c.topVendors);
  }

  lemma MetricsCacheKeys(cache: map<Endpoint, Body>, f: Filters, m: MetricsFetches)
    ensures Extends(cache, MetricsCache(cache, f, m))
    ensures MetricsCache(cache, f, m).Keys <= cache.Keys + DashboardEndpoints(f)
    ensures Succeeds(m.overview) ==> OverviewEndpoint(f) in MetricsCache(cache, f, m)
    ensures Succeeds(m.summary) ==> SummaryEndpoint(f) in MetricsCache(cache, f, m)
  {
    var c1 := CacheAfter(cache, OverviewEndpoint(f), m.overview);
    var c2 := CacheAfter(c1, SummaryEndpoint(f), m.summary);
    ApiCallOnlyAdds(cache, OverviewEndpoint(f), m.overview);
    ApiCallOnlyAdds(c1, SummaryEndpoint(f), m.summary);
    ChartsCacheKeys(c2, f, m.charts);
  }

  lemma AdvancedCacheKeys(cache: map<Endpoint, Body>, a: AdvancedFetches)
    ensures Extends(cache, AdvancedCache(cache, a))
    ensures AdvancedCache(cache, a).Keys <= cache.Keys + {ScatterTripsEndpoint, BoroughLocationsEndpoint, RevenueVendorsEndpoint}
  {
    var c1 := CacheAfter(cache, ScatterTripsEndpoint, a.scatter);
    var c2 := CacheAfter(c1, BoroughLocationsEndpoint, a.boroughs);
    ApiCallOnlyAdds(cache, ScatterTripsEndpoint, a.scatter);
    ApiCallOnlyAdds(c1, BoroughLocationsEndpoint, a.boroughs);
    ApiCallOnlyAdds(c2, RevenueVendorsEndpoint, a.revenue);
  }

  lemma AnalyticsCacheKeys(cache: map<Endpoint, Body>, f: Filters, a: AnalyticsFetches, peakHourShown: bool)
    ensures Extends(cache, AnalyticsCache(cache, f, a, peakHourShown))
    ensures AnalyticsCache(cache, f, a, peakHourShown).Keys
      <= cache.Keys + {SummaryEndpoint(f), TripVolumeEndpoint(f), ScatterTripsEndpoint, BoroughLocationsEndpoint, RevenueVendorsEndpoint}
  {
    var c1 := CacheAfter(cache, SummaryEndpoint(f), a.summary);
    var c2 := CacheAfter(c1, TripVolumeEndpoint(f), a.peakTrips);
    ApiCallOnlyAdds(cache, SummaryEndpoint(f), a.summary);
    ApiCallOnlyAdds(c1, TripVolumeEndpoint(f), a.peakTrips);
    AdvancedCacheKeys(c1, a.advanced);
    AdvancedCacheKeys(c2, a.advanced);
  }

  /**
   * "Clear cache when filters change": after a dashboard date change the
   * cache holds nothing but the dashboard's requests under the new dates, so
   * no answer fetched under the old dates survives; when all four requests
   * succeed, all four are cached.
   */
  lemma DashboardCacheFresh(f: Filters, m: MetricsFetches, c: ChartFetches)
    ensures DashboardRefetched(f, m, c).Keys <= DashboardEndpoints(f)
    ensures Succeeds(m.overview) && Succeeds(m.summary) && Succeeds(c.tripVolume) && Succeeds(c.topVendors) ==>
      DashboardRefetched(f, m, c).Keys == DashboardEndpoints(f)
  {
    MetricsCacheKeys(map[], f, m);
    ChartsCacheKeys(MetricsCache(map[], f, m), f, c);
  }

  /** The answer fetch gives for the vendors when the cache cannot answer. */
  function FreshVendors(s: AppState, outcome: FetchOutcome): map<string, string> {
    var answer := ApiResult(map[], VendorsEndpoint, outcome);
    if answer.Ok? && answer.value.VendorList? then Remembered(s.vendorMap, answer.value.vendors) else s.vendorMap
  }

  /**
   * loadInitialData after an emptied cache: only the cache and the vendor
   * map change, the cache holds nothing but its own requests, and the vendor
   * map comes from a fresh /vendors answer.
   */
  lemma InitialDataRefetches(s: AppState, i: InitialFetches)
    ensures var after := InitialDataLoaded(s.(cache := map[]), i);
      && after.(cache := s.cache, vendorMap := s.vendorMap) == s
      && after.cache.Keys <= DashboardEndpoints(s.filters) + {VendorsEndpoint, LocationsEndpoint(s), TripsEndpoint(s)}
      && after.vendorMap == FreshVendors(s, i.vendors)
      && (Succeeds(i.vendors) ==> VendorsEndpoint in after.cache)
  {
    var metrics := MetricsCache(map[], s.filters, i.metrics);
    MetricsCacheKeys(map[], s.filters, i.metrics);
    assert VendorsEndpoint !in metrics;
    VendorsFresh(s, metrics, i.vendors);
    var vendors := VendorsLoaded(s.(cache := metrics), i.vendors);
    assert LocationsEndpoint(vendors) == LocationsEndpoint(s) && TripsEndpoint(vendors) == TripsEndpoint(s);
    var locations := CacheAfter(vendors.cache, LocationsEndpoint(s), i.locations);
    ApiCallOnlyAdds(vendors.cache, LocationsEndpoint(s), i.locations);
    ApiCallOnlyAdds(locations, TripsEndpoint(s), i.trips);
  }

  /** The /vendors load on a cache that does not hold it yet: the vendor map comes from the fresh answer. */
  lemma VendorsFresh(s: AppState, cache: map<Endpoint, Body>, outcome: FetchOutcome)
    requires VendorsEndpoint !in cache
    ensures var v := VendorsLoaded(s.(cache := cache), outcome);
      && v.(cache := s.cache, vendorMap := s.vendorMap) == s
      && v.vendorMap == FreshVendors(s, outcome)
      && Extends(cache, v.cache)
      && v.cache.Keys <= cache.Keys + {VendorsEndpoint}
      && (Succeeds(outcome) ==> VendorsEndpoint in v.cache)
  {
    ApiCallOnlyAdds(cache, VendorsEndpoint, outcome);
  }

  /** The cache the section reload, the charts and the advanced charts of refreshData leave. */
  lemma RefreshTailKeys(s: AppState, r: RefreshFetches, peakHourShown: bool)
    ensures var after := Refreshed(s, r, peakHourShown).cache;
      && Extends(InitialDataLoaded(s.(cache := map[]), r.initial).cache, after)
      && after.Keys <= InitialDataLoaded(s.(cache := map[]), r.initial).cache.Keys + RefreshEndpoints(s)
  {
    var f := s.filters;
    var initial := InitialDataLoaded(s.(cache := map[]), r.initial).cache;
    var section :=
      if s.currentSection == "analytics" then AnalyticsCache(initial, f, r.analytics, peakHourShown)
      else if s.currentSection == "dashboard" then MetricsCache(initial, f, r.dashboard)
      else initial;
    AnalyticsCacheKeys(initial, f, r.analytics, peakHourShown);
    MetricsCacheKeys(initial, f, r.dashboard);
    ChartsCacheKeys(section, f, r.charts);
    AdvancedCacheKeys(ChartsCache(section, f, r.charts), r.advanced);
  }

  /**
   * refreshData leaves the filters, sort, pages and section alone, caches
   * nothing but the requests a refresh makes from that state, and asks the
   * network again for the vendors: the vendor map is what the fresh
   * /vendors answer gives, whatever the cache held before.
   */
  lemma RefreshRefetches(s: AppState, r: RefreshFetches, peakHourShown: bool)
    ensures Refreshed(s, r, peakHourShown).(cache := s.cache, vendorMap := s.vendorMap) == s
    ensures Refreshed(s, r, peakHourShown).cache.Keys <= RefreshEndpoints(s)
    ensures Refreshed(s, r, peakHourShown).vendorMap == FreshVendors(s, r.initial.vendors)
    ensures Succeeds(r.initial.vendors) ==> VendorsEndpoint in Refreshed(s, r, peakHourShown).cache
  {
    InitialDataRefetches(s, r.initial);
    RefreshTailKeys(s, r, peakHourShown);
  }

  // ---------------------------------------------------------------- the application object

  class UrbanMobilityApp {
    var currentSection: string
    var currentPage: int
    var pageSize: int
    var locationsCurrentPage: int
    var locationsPageSize: int
    var sortField: Option<string>
    var sortDirection: string
    var filters: Filters
    var cache: map<Endpoint, Body>
    var vendorMap: map<string, string>

    function State(): AppState
      reads this
    {
      AppState(currentSection, currentPage, pageSize, locationsCurrentPage, locationsPageSize,
        sortField, sortDirection, filters, cache, vendorMap)
    }

    /** Both page counters stay at 1 or above. */
    ghost predicate Valid()
      reads this
    {
      currentPage >= 1 && locationsCurrentPage >= 1
    }

    constructor ()
      ensures State() == InitialState && Valid()
    {
      currentSection := "dashboard";
      currentPage, pageSize := 1, 10;
      locationsCurrentPage, locationsPageSize := 1, 12;
      sortField, sortDirection := None, "desc";
      filters := NoFilters;
      cache, vendorMap := map[], map[];
    }

    /** apiCall: answer from the cache, or fetch and store the body on success. */
    method ApiCall(endpoint: Endpoint, outcome: FetchOutcome) returns (r: Result<Body, ApiError>, fetched: bool)
      modifies this
      ensures r == ApiResult(old(cache), endpoint, outcome)
      ensures fetched <==> endpoint !in old(cache)
      ensures State() == old(State()).(cache := CacheAfter(old(cache), endpoint, outcome))
    {
      if endpoint in cache {
        return Ok(cache[endpoint]), false;
      }
      fetched := true;
      match outcome {
        case NetworkFailure =>
          r := Err(NetworkError);
        case Response(ok, status, statusText, json) =>
          if !ok {
            r := Err(HttpError(status, statusText));
          } else if json.None? {
            r := Err(InvalidJson);
          } else {
            cache := cache[endpoint := json.value];
            r := Ok(json.value);
          }
      }
    }

    /** loadTrips: request the current page of trips under the current filters and sort. */
    method LoadTrips(outcome: FetchOutcome) returns (r: Result<Body, ApiError>)
      modifies this
      ensures r == ApiResult(old(cache), TripsEndpoint(old(State())), outcome)
      ensures State() == old(State()).(cache := CacheAfter(old(cache), TripsEndpoint(old(State())), outcome))
    {
      var fetched;
      r, fetched := ApiCall(TripsEndpoint(State()), outcome);
    }

    /** loadLocations: request the current page of locations. */
    method LoadLocations(outcome: FetchOutcome) returns (r: Result<Body, ApiError>)
      modifies this
      ensures r == ApiResult(old(cache), LocationsEndpoint(old(State())), outcome)
      ensures State() == old(State()).(cache := CacheAfter(old(cache), LocationsEndpoint(old(State())), outcome))
    {
      var fetched;
      r, fetched := ApiCall(LocationsEndpoint(State()), outcome);
    }

    /**
     * The requests of `visualizer.updateCharts()`, as they reach this cache
     * (DataVisualizer.UpdateCharts draws what they return).
     */
    method ChartRequests(c: ChartFetches)
      modifies this
      ensures State() == old(State()).(cache := ChartsCache(old(cache), old(filters), c))
    {
      var _, _ := ApiCall(TripVolumeEndpoint(filters), c.tripVolume);
      var _, _ := ApiCall(TopVendorsEndpoint(filters), c.topVendors);
    }

    /**
     * loadDashboardMetrics: the overview and the trip summary under the date
     * filters; when both resolve to something other than null (whose fields
     * would throw), the charts are updated.
     */
    method LoadDashboardMetrics(m: MetricsFetches)
      modifies this
      ensures State() == old(State()).(cache := MetricsCache(old(cache), old(filters), m))
    {
      var overview, _ := ApiCall(OverviewEndpoint(filters), m.overview);
      var summary, _ := ApiCall(SummaryEndpoint(filters), m.summary);
      if overview.Ok? && !overview.value.Null? && summary.Ok? && !summary.value.Null? {
        ChartRequests(m.charts);
      }
    }

    /** The requests of `advancedVisualizer.initializeAllCharts()`, as they reach this cache. */
    method AdvancedChartRequests(a: AdvancedFetches)
      modifies this
      ensures State() == old(State()).(cache := AdvancedCache(old(cache), a))
    {
      var _, _ := ApiCall(ScatterTripsEndpoint, a.scatter);
      var _, _ := ApiCall(BoroughLocationsEndpoint, a.boroughs);
      var _, _ := ApiCall(RevenueVendorsEndpoint, a.revenue);
    }

    /**
     * loadAnalytics: the summary under the date filters, then (when the
     * summary is truthy and the page shows a peak hour) up to 1000 trips
     * under them, then the advanced charts; a failed request ends it.
     */
    method LoadAnalytics(a: AnalyticsFetches, peakHourShown: bool)
      modifies this
      ensures State() == old(State()).(cache := AnalyticsCache(old(cache), old(filters), a, peakHourShown))
    {
      var summary, _ := ApiCall(SummaryEndpoint(filters), a.summary);
      if summary.Err? {
        return;
      }
      if BodyTruthy(summary.value) && peakHourShown {
        var trips, _ := ApiCall(TripVolumeEndpoint(filters), a.peakTrips);
        if trips.Err? {
          return;
        }
      }
      AdvancedChartRequests(a.advanced);
    }

    /** The forEach of loadVendors that fills vendorMap. */
    method RememberVendors(vendors: seq<VendorRow>)
      modifies this
      ensures State() == old(State()).(vendorMap := Remembered(old(vendorMap), vendors))
    {
      var i := 0;
      while i < |vendors|
        invariant 0 <= i <= |vendors|
        invariant State() == old(State()).(vendorMap := Remembered(old(vendorMap), vendors[..i]))
      {
        var vendor := vendors[i];
        vendorMap := vendorMap[vendor.vendorId := OrElse(vendor.vendorName, vendor.vendorId)];
        assert vendors[..i + 1][..i] == vendors[..i];
        i := i + 1;
      }
      assert vendors[..i] == vendors;
    }

    /** loadVendors: fetch /vendors and remember each vendor's display name. */
    method LoadVendors(outcome: FetchOutcome)
      modifies this
      ensures State() == VendorsLoaded(old(State()), outcome)
    {
      var r, _ := ApiCall(VendorsEndpoint, outcome);
      if r.Ok? && r.value.VendorList? {
        RememberVendors(r.value.vendors);
      }
    }

    /** getVendorName. */
    function GetVendorName(vendorId: string): (name: string)
      reads this
      ensures name == VendorName(vendorMap, vendorId)
    {
      if vendorId in vendorMap && vendorMap[vendorId] != "" then vendorMap[vendorId] else vendorId
    }

    // ------------------------------------------------------------ handlers

    /** The search box's input event: store the text; the debounce timer reloads later. */
    method OnSearchInput(value: string)
      requires Valid()
      modifies this
      ensures Valid()
      ensures State() == old(State()).(filters := old(filters).(search := value))
    {
      filters := filters.(search := value);
    }

    /** The debounce timer firing: back to page 1 and reload. */
    method OnSearchDebounceElapsed(outcome: FetchOutcome)
      requires Valid()
      modifies this
      ensures Valid()
      ensures var s := old(State()).(currentPage := 1);
        State() == s.(cache := CacheAfter(s.cache, TripsEndpoint(s), outcome))
    {
      currentPage := 1;
      var _ := LoadTrips(outcome);
    }

    method OnVendorFilterChange(value: string, outcome: FetchOutcome)
      requires Valid()
      modifies this
      ensures Valid()
      ensures var s := old(State()).(filters := old(filters).(vendor := value), currentPage := 1);
        State() == s.(cache := CacheAfter(s.cache, TripsEndpoint(s), outcome))
    {
      filters := filters.(vendor := value);
      currentPage := 1;
      var _ := LoadTrips(outcome);
    }

    /**
     * The location filter's change event reloads without resetting the page;
     * since loadTrips never sends the location, it requests the same endpoint.
     */
    method OnLocationFilterChange(value: string, outcome: FetchOutcome)
      requires Valid()
      modifies this
      ensures Valid()
      ensures TripsEndpoint(old(State()).(filters := old(filters).(location := value))) == TripsEndpoint(old(State()))
      ensures State() == old(State()).(filters := old(filters).(location := value),
        cache := CacheAfter(old(cache), TripsEndpoint(old(State())), outcome))
    {
      filters := filters.(location := value);
      var _ := LoadTrips(outcome);
    }

    method OnSortFieldChange(value: string, outcome: FetchOutcome)
      requires Valid()
      modifies this
      ensures Valid()
      ensures var s := old(State()).(sortField := Some(value), currentPage := 1);
        State() == s.(cache := CacheAfter(s.cache, TripsEndpoint(s), outcome))
    {
      sortField := Some(value);
      currentPage := 1;
      var _ := LoadTrips(outcome);
    }

    method OnSortDirectionChange(value: string, outcome: FetchOutcome)
      requires Valid()
      modifies this
      ensures Valid()
      ensures var s := old(State()).(sortDirection := value, currentPage := 1);
        State() == s.(cache := CacheAfter(s.cache, TripsEndpoint(s), outcome))
    {
      sortDirection := value;
      currentPage := 1;
      var _ := LoadTrips(outcome);
    }

    /**
     * The dashboard start-date input: store the date, empty the cache,
     * reload the metrics, then update the charts; the page is kept.
     */
    method OnDashboardStartDateChange(value: string, metrics: MetricsFetches, charts: ChartFetches)
      requires Valid()
      modifies this
      ensures Valid()
      ensures var f := old(filters).(startDate := value);
        State() == old(State()).(filters := f, cache := DashboardRefetched(f, metrics, charts))
    {
      filters := filters.(startDate := value);
      cache := map[];
      LoadDashboardMetrics(metrics);
      ChartRequests(charts);
    }

    /**
     * The dashboard end-date input: store the date, empty the cache,
     * reload the metrics, then update the charts; the page is kept.
     */
    method OnDashboardEndDateChange(value: string, metrics: MetricsFetches, charts: ChartFetches)
      requires Valid()
      modifies this
      ensures Valid()
      ensures var f := old(filters).(endDate := value);
        State() == old(State()).(filters := f, cache := DashboardRefetched(f, metrics, charts))
    {
      filters := filters.(endDate := value);
      cache := map[];
      LoadDashboardMetrics(metrics);
      ChartRequests(charts);
    }

    method OnTripsStartDateChange(value: string, outcome: FetchOutcome)
      requires Valid()
      modifies this
      ensures Valid()
      ensures var s := old(State()).(filters := old(filters).(startDate := value), currentPage := 1);
        State() == s.(cache := CacheAfter(s.cache, TripsEndpoint(s), outcome))
    {
      filters := filters.(startDate := value);
      currentPage := 1;
      var _ := LoadTrips(outcome);
    }

    method OnTripsEndDateChange(value: string, outcome: FetchOutcome)
      requires Valid()
      modifies this
      ensures Valid()
      ensures var s := old(State()).(filters := old(filters).(endDate := value), currentPage := 1);
        State() == s.(cache := CacheAfter(s.cache, TripsEndpoint(s), outcome))
    {
      filters := filters.(endDate := value);
      currentPage := 1;
      var _ := LoadTrips(outcome);
    }

    /** The items-per-page select: the parsed page size, back to page 1, reload. */
    method OnItemsPerPageChange(size: int, outcome: FetchOutcome)
      requires Valid()
      modifies this
      ensures Valid()
      ensures var s := old(State()).(pageSize := size, currentPage := 1);
        State() == s.(cache := CacheAfter(s.cache, TripsEndpoint(s), outcome))
    {
      pageSize := size;
      currentPage := 1;
      var _ := LoadTrips(outcome);
    }

    method OnLocationsItemsPerPageChange(size: int, outcome: FetchOutcome)
      requires Valid()
      modifies this
      ensures Valid()
      ensures var s := old(State()).(locationsPageSize := size, locationsCurrentPage := 1);
        State() == s.(cache := CacheAfter(s.cache, LocationsEndpoint(s), outcome))
    {
      locationsPageSize := size;
      locationsCurrentPage := 1;
      var _ := LoadLocations(outcome);
    }

    /**
     * handleSort: the same field flips the direction ('asc' to 'desc',
     * anything else to 'asc'); a new field sorts ascending. The page stays.
     */
    method HandleSort(field: string, outcome: FetchOutcome)
      requires Valid()
      modifies this
      ensures Valid()
      ensures var s := old(State()).(sortField := Some(field), sortDirection := NextDirection(old(sortField), old(sortDirection), field));
        State() == s.(cache := CacheAfter(s.cache, TripsEndpoint(s), outcome))
    {
      if sortField == Some(field) {
        sortDirection := if sortDirection == "asc" then "desc" else "asc";
      } else {
        sortField := Some(field);
        sortDirection := "asc";
      }
      var _ := LoadTrips(outcome);
    }

    /** changePage: step the page by `direction` unless that would go below 1. */
    method ChangePage(direction: int, outcome: FetchOutcome)
      requires Valid()
      modifies this
      ensures Valid()
      ensures old(currentPage) + direction < 1 ==> State() == old(State())
      ensures old(currentPage) + direction >= 1 ==>
        var s := old(State()).(currentPage := old(currentPage) + direction);
        State() == s.(cache := CacheAfter(s.cache, TripsEndpoint(s), outcome))
    {
      var newPage := currentPage + direction;
      if newPage >= 1 {
        currentPage := newPage;
        var _ := LoadTrips(outcome);
      }
    }

    /** changeLocationsPage: the same rule for the locations grid. */
    method ChangeLocationsPage(direction: int, outcome: FetchOutcome)
      requires Valid()
      modifies this
      ensures Valid()
      ensures old(locationsCurrentPage) + direction < 1 ==> State() == old(State())
      ensures old(locationsCurrentPage) + direction >= 1 ==>
        var s := old(State()).(locationsCurrentPage := old(locationsCurrentPage) + direction);
        State() == s.(cache := CacheAfter(s.cache, LocationsEndpoint(s), outcome))
    {
      var newPage := locationsCurrentPage + direction;
      if newPage >= 1 {
        locationsCurrentPage := newPage;
        var _ := LoadLocations(outcome);
      }
    }

    /**
     * clearAllFilters: every filter to '', no sort field, direction 'desc',
     * page 1, then reload; the cache, page sizes and locations page stay.
     */
    method ClearAllFilters(outcome: FetchOutcome)
      requires Valid()
      modifies this
      ensures Valid()
      ensures var s := old(State()).(filters := NoFilters, sortField := None, sortDirection := "desc", currentPage := 1);
        State() == s.(cache := CacheAfter(s.cache, TripsEndpoint(s), outcome))
    {
      filters := NoFilters;
      sortField := None;
      sortDirection := "desc";
      currentPage := 1;
      var _ := LoadTrips(outcome);
    }

    /** loadInitialData: the dashboard metrics, the vendors, the locations and the trips. */
    method LoadInitialData(i: InitialFetches)
      modifies this
      ensures State() == InitialDataLoaded(old(State()), i)
    {
      LoadDashboardMetrics(i.metrics);
      LoadVendors(i.vendors);
      var _ := LoadLocations(i.locations);
      var _ := LoadTrips(i.trips);
    }

    /**
     * refreshData: empty the cache, load the initial data, reload the
     * current section, update the charts, and on the analytics section load
     * the advanced charts.
     */
    method RefreshData(r: RefreshFetches, peakHourShown: bool)
      requires Valid()
      modifies this
      ensures Valid()
      ensures State() == Refreshed(old(State()), r, peakHourShown)
    {
      cache := map[];
      LoadInitialData(r.initial);
      if currentSection == "analytics" {
        LoadAnalytics(r.analytics, peakHourShown);
      } else if currentSection == "dashboard" {
        LoadDashboardMetrics(r.dashboard);
      }
      ChartRequests(r.charts);
      if currentSection == "analytics" {
        AdvancedChartRequests(r.advanced);
      }
    }
  }

  /** The direction handleSort leaves behind. */
  function NextDirection(sortField: Option<string>, sortDirection: string, field: string): (d: string)
    ensures sortField != Some(field) ==> d == "asc"
    ensures sortField == Some(field) ==> d == (if sortDirection == "asc" then "desc" else "asc")
  {
    if sortField == Some(field) then (if sortDirection == "asc" then "desc" else "asc") else "asc"
  }

  /** Clicking the same column twice from an ascending sort comes back to ascending. */
  lemma SortTwiceFromAscending(field: string, sortDirection: string)
    ensures NextDirection(Some(field), NextDirection(Some(field), "asc", field), field) == "asc"
  {}

  /** After clearAllFilters the trips request carries only limit and offset=0. */
  lemma ClearedTripsEndpoint(s: AppState)
    requires s.filters == NoFilters && s.sortField.None? && s.currentPage == 1
    ensures TripsEndpoint(s).query == [Param(Limit, IntToString(s.pageSize)), Param(Offset, "0")]
  {
    assert PageOffset(1, s.pageSize) == 0;
  }

  // ---------------------------------------------------------------- formatting

  /** a - b * floor(a / b) lies in [0, b) for a positive divisor. */
  lemma FloorRemainderBounds(a: real, b: real)
    requires b > 0.0
    ensures 0.0 <= a - b * ((a / b).Floor as real) < b
  {
    var q := a / b;
    WholePartRemainder(a, b, q, q.Floor as real);
  }

  lemma WholePartRemainder(a: real, b: real, q: real, f: real)
    requires b > 0.0 && b * q == a && f <= q < f + 1.0
    ensures 0.0 <= a - b * f < b
  {
    var d := q - f;
    FractionScaled(b, d);
    var scaled := b * d;
    assert scaled == b * q - b * f;
  }

  /** Scaling a fraction in [0, 1) by a positive b lands in [0, b). */
  lemma FractionScaled(b: real, d: real)
    requires b > 0.0 && 0.0 <= d < 1.0
    ensures 0.0 <= b * d < b
  {
    assert b - b * d == b * (1.0 - d);
  }

  /** JavaScript's % on numbers: the remainder takes the sign of the dividend. */
  function TruncatedRemainder(a: real, b: real): (r: real)
    requires b > 0.0
    ensures a >= 0.0 ==> 0.0 <= r < b && r == a - b * ((a / b).Floor as real)
    ensures a < 0.0 ==> -b < r <= 0.0
  {
    FloorRemainderBounds(a, b);
    FloorRemainderBounds(-a, b);
    if a >= 0.0 then a - b * ((a / b).Floor as real)
    else -((-a) - b * (((-a) / b).Floor as real))
  }

  /** formatDuration: '-' for a falsy value, otherwise "<h>h <m>m" when the hours are positive, else "<m>m". */
  function FormatDuration(minutes: Option<real>): (text: string)
    ensures text == "-" <==> minutes.None? || minutes.value == 0.0
  {
    if minutes.None? || minutes.value == 0.0 then "-"
    else
      var m := minutes.value;
      var hours := (m / 60.0).Floor;
      var mins := TruncatedRemainder(m, 60.0).Floor;
      if hours > 0 then IntToString(hours) + "h " + IntToString(mins) + "m"
      else IntToString(mins) + "m"
  }

  /**
   * For a positive duration the two shown numbers split the whole minutes:
   * 60 * hours + mins == floor(m) with 0 <= mins < 60, and the hours appear
   * exactly when m is at least an hour.
   */
  lemma FormatDurationSplitsMinutes(m: real)
    requires m > 0.0
    ensures exists hours: nat, mins: nat ::
      && 60 * hours + mins == m.Floor && mins < 60
      && (m >= 60.0 ==> hours >= 1 && FormatDuration(Some(m)) == NatToString(hours) + "h " + NatToString(mins) + "m")
      && (m < 60.0 ==> hours == 0 && FormatDuration(Some(m)) == NatToString(mins) + "m")
  {
    var h := (m / 60.0).Floor;
    assert h >= 0;
    var hours: nat := h;
    var rem := TruncatedRemainder(m, 60.0);
    assert rem == m - 60.0 * (hours as real);
    var mi := rem.Floor;
    assert 0 <= mi < 60;
    var mins: nat := mi;
    assert (60 * hours + mins) as real <= m < (60 * hours + mins) as real + 1.0;
    assert 60 * hours + mins == m.Floor;
    assert m >= 60.0 ==> hours >= 1 by {
      if m >= 60.0 { assert m / 60.0 >= 1.0; }
    }
    assert m < 60.0 ==> hours == 0 by {
      if m < 60.0 { assert 0.0 < m / 60.0 < 1.0; }
    }
    assert && 60 * hours + mins == m.Floor && mins < 60
      && (m >= 60.0 ==> hours >= 1 && FormatDuration(Some(m)) == NatToString(hours) + "h " + NatToString(mins) + "m")
      && (m < 60.0 ==> hours == 0 && FormatDuration(Some(m)) == NatToString(mins) + "m");
  }

  // ---------------------------------------------------------------- peak hour

  /**
   * The peak-hour reduction of loadAnalytics: tally the pickup hours, then
   * reduce the present hours in ascending order with
   * `(a, b) => counts[a] > counts[b] ? a : b`, so ties go to the later hour.
   */
  method PeakHour(hours: seq<Option<Hour>>) returns (peak: Option<Hour>)
    ensures peak.None? <==> CountPresent(hours) == 0
    ensures peak.Some? ==> CountHour(hours, peak.value) > 0
    ensures peak.Some? ==> forall h: Hour :: CountHour(hours, h) <= CountHour(hours, peak.value)
    ensures peak.Some? ==> forall h: Hour | h > peak.value :: CountHour(hours, h) < CountHour(hours, peak.value)
  {
    var counts := TallyHours(hours);
    peak := None;
    var h := 0;
    while h < 24
      invariant 0 <= h <= 24
      invariant peak.None? <==> forall g: Hour | g < h :: g !in counts
      invariant peak.Some? ==> peak.value < h && peak.value in counts
      invariant peak.Some? ==> forall g: Hour | g < h && g in counts :: counts[g] <= counts[peak.value]
      invariant peak.Some? ==> forall g: Hour | peak.value < g < h && g in counts :: counts[g] < counts[peak.value]
    {
      if h in counts {
        if !(peak.Some? && counts[peak.value] > counts[h]) {
          peak := Some(h);
        }
      }
      h := h + 1;
    }
    if peak.None? {
      NoTallyNoPresent(hours);
    } else {
      CountHourAtMostPresent(hours, peak.value);
    }
  }

  /** With no hour tallied, no trip has a pickup hour. */
  lemma {:induction false} NoTallyNoPresent(hours: seq<Option<Hour>>)
    requires forall h: Hour :: CountHour(hours, h) == 0
    ensures CountPresent(hours) == 0
    decreases |hours|
  {
    if hours != [] {
      var init := hours[..|hours| - 1];
      forall h: Hour ensures CountHour(init, h) == 0 {
        assert CountHour(hours, h) == CountHour(init, h) + (if hours[|hours| - 1] == Some(h) then 1 else 0);
      }
      NoTallyNoPresent(init);
      var last := hours[|hours| - 1];
      if last.Some? {
        assert CountHour(hours, last.value) >= 1;
      }
    }
  }

  /** Trips at one hour are among the trips with an hour. */
  lemma {:induction false} CountHourAtMostPresent(hours: seq<Option<Hour>>, h: Hour)
    ensures CountHour(hours, h) <= CountPresent(hours)
    decreases |hours|
  {
    if hours != [] {
      CountHourAtMostPresent(hours[..|hours| - 1], h);
    }
  }

  /** The peak is rendered as `${peak.padStart(2, '0')}:00`. */
  function PeakHourLabel(peak: Option<Hour>): (text: Option<string>)
    ensures peak.None? ==> text.None?
    ensures peak.Some? ==> text.Some? && |text.value| == 5 && AllDigits(text.value[..2]) && DigitsValue(text.value[..2]) == peak.value
  {
    if peak.None? then None else Some(HourLabel(peak.value))
  }
}
