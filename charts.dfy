/**
 * DataVisualizer of frontend/js/charts.js: the hourly trip-volume series,
 * the vendor performance bars, and the two chart slots each render replaces.
 * Whether the target canvas exists in the page is a parameter.
 */
module Visualizer {
  import opened Wrappers
  import opened Hours
  import opened Payloads
  import opened Charting
  import opened MobilityApp

  // ---------------------------------------------------------------- hourly series

  datatype HourBucket = HourBucket(hour: Hour, tag: string, count: nat)

  /** The pickup hour of each trip, in trip order. */
  function PickupHours(trips: seq<TripRow>): (hours: seq<Option<Hour>>)
    ensures |hours| == |trips|
    ensures forall i | 0 <= i < |trips| :: hours[i] == trips[i].pickupHour
  {
    seq(|trips|, i requires 0 <= i < |trips| => trips[i].pickupHour)
  }

  /** The 24 buckets the hourly series should hold: hour, label and number of trips. */
  ghost function HourBuckets(hours: seq<Option<Hour>>): (buckets: seq<HourBucket>)
    ensures |buckets| == 24
    ensures forall h: Hour :: buckets[h] == HourBucket(h, HourLabel(h), CountHour(hours, h))
  {
    seq(24, h requires 0 <= h < 24 => HourBucket(h, HourLabel(h), CountHour(hours, h)))
  }

  /** aggregateTripsByHour: 24 buckets in hour order, each with its label and its number of trips. */
  method AggregateTripsByHour(trips: seq<TripRow>) returns (data: seq<HourBucket>)
    ensures |data| == 24
    ensures forall h: Hour :: data[h] == HourBucket(h, HourLabel(h), CountHour(PickupHours(trips), h))
  {
    var hours := PickupHours(trips);
    var hourlyCounts := TallyHours(hours);
    data := [];
    var hour: int := 0;
    while hour < 24
      invariant 0 <= hour <= 24 && data == HourBuckets(hours)[..hour]
    {
      var count := if hour in hourlyCounts then hourlyCounts[hour] else 0;
      TalliedCount(hours, hourlyCounts, hour);
      BucketStep(hours, data, hour, count);
      data := data + [HourBucket(hour, HourLabel(hour), count)];
      hour := hour + 1;
    }
    assert data == HourBuckets(hours);
  }

  /** The tally's entry for an hour, or 0 when it has none, is that hour's count. */
  lemma TalliedCount(hours: seq<Option<Hour>>, counts: map<Hour, nat>, hour: Hour)
    requires forall h: Hour :: h in counts <==> CountHour(hours, h) > 0
    requires forall h: Hour | h in counts :: counts[h] == CountHour(hours, h)
    ensures (if hour in counts then counts[hour] else 0) == CountHour(hours, hour)
  {}

  /** One step of the hourly loop: the bucket for the next hour extends the prefix built so far. */
  lemma BucketStep(hours: seq<Option<Hour>>, data: seq<HourBucket>, hour: Hour, count: nat)
    requires data == HourBuckets(hours)[..hour]
    requires count == CountHour(hours, hour)
    ensures data + [HourBucket(hour, HourLabel(hour), count)] == HourBuckets(hours)[..hour + 1]
  {
    var expected := HourBuckets(hours);
    assert expected[hour] == HourBucket(hour, HourLabel(hour), count);
    PrefixSnoc(expected, hour);
  }

  /** The prefix of n + 1 elements is the prefix of n followed by element n. */
  lemma PrefixSnoc<T>(s: seq<T>, n: nat)
    requires n < |s|
    ensures s[..n + 1] == s[..n] + [s[n]]
  {}

  /** The sum of the bucket counts. */
  function TotalCount(data: seq<HourBucket>): nat {
    if data == [] then 0 else TotalCount(data[..|data| - 1]) + data[|data| - 1].count
  }

  /**
   * The 24 buckets account for every trip with a pickup hour and for no
   * other, so they never add up to more than the number of trips.
   */
  lemma HourlyTotal(trips: seq<TripRow>, data: seq<HourBucket>)
    requires |data| == 24
    requires forall h: Hour :: data[h].count == CountHour(PickupHours(trips), h)
    ensures TotalCount(data) == CountPresent(PickupHours(trips))
    ensures TotalCount(data) <= |trips|
  {
    TotalIsSumCounts(PickupHours(trips), data, 24);
    SumCountsIsPresent(PickupHours(trips));
    assert data[..24] == data;
  }

  lemma {:induction false} TotalIsSumCounts(hours: seq<Option<Hour>>, data: seq<HourBucket>, k: nat)
    requires k <= |data| == 24
    requires forall h: Hour :: data[h].count == CountHour(hours, h)
    ensures TotalCount(data[..k]) == SumCounts(hours, k)
  {
    if k > 0 {
      TotalIsSumCounts(hours, data, k - 1);
      assert data[..k][..k - 1] == data[..k - 1];
    }
  }

  function BucketLabels(data: seq<HourBucket>): seq<string> {
    seq(|data|, i requires 0 <= i < |data| => data[i].tag)
  }

  function BucketCounts(data: seq<HourBucket>): seq<nat> {
    seq(|data|, i requires 0 <= i < |data| => data[i].count)
  }

  /** The x-axis of the trip-volume chart: "00:00" to "23:00". */
  function HourLabels(): (labels: seq<string>)
    ensures |labels| == 24
    ensures forall h: Hour :: labels[h] == HourLabel(h)
  {
    seq(24, h requires 0 <= h < 24 => HourLabel(h))
  }

  /** The y-values of the trip-volume chart: trips per pickup hour. */
  function HourlyCounts(trips: seq<TripRow>): (counts: seq<nat>)
    ensures |counts| == 24
    ensures forall h: Hour :: counts[h] == CountHour(PickupHours(trips), h)
  {
    seq(24, h requires 0 <= h < 24 => CountHour(PickupHours(trips), h))
  }

  /** The chart aggregateTripsByHour's buckets are drawn as. */
  lemma BucketsChart(trips: seq<TripRow>, data: seq<HourBucket>)
    requires |data| == 24
    requires forall h: Hour :: data[h] == HourBucket(h, HourLabel(h), CountHour(PickupHours(trips), h))
    ensures BucketLabels(data) == HourLabels() && BucketCounts(data) == HourlyCounts(trips)
  {}

  // ---------------------------------------------------------------- axis ticks

  /** A y-axis tick: thousands shown with a 'K' suffix, smaller values as they are. */
  datatype Tick = Thousands(value: real) | Plain(value: real)

  /** The number a tick stands for. */
  function Magnitude(t: Tick): real {
    match t
    case Thousands(v) => v * 1000.0
    case Plain(v) => v
  }

  /** The y-tick callback: value / 1000 with a 'K' for values of 1000 and more. */
  function YTick(value: real): (t: Tick)
    ensures t.Thousands? <==> value >= 1000.0
    ensures t.Thousands? ==> t.value >= 1.0
    ensures Magnitude(t) == value
  {
    if value >= 1000.0 then Thousands(value / 1000.0) else Plain(value)
  }

  // ---------------------------------------------------------------- vendor bars

  /** `v.vendor_name || v.vendor_id || 'Unknown'`. */
  function VendorLabel(v: VendorRow): (shown: string)
    ensures shown != ""
    ensures Truthy(v.vendorName) ==> shown == v.vendorName.value
  {
    if Truthy(v.vendorName) then v.vendorName.value
    else if v.vendorId != "" then v.vendorId
    else "Unknown"
  }

  /**
   * Once named through the vendor map, a bar is labelled with the remembered
   * name, else the id, and 'Unknown' only for a blank id with no name.
   */
  lemma NamedVendorLabel(vendorMap: map<string, string>, vendors: seq<VendorRow>, i: nat)
    requires i < |vendors|
    ensures var id := vendors[i].vendorId;
      VendorLabel(NamedVendors(vendorMap, vendors)[i]) ==
        if id in vendorMap && vendorMap[id] != "" then vendorMap[id]
        else if id != "" then id
        else "Unknown"
  {}

  /** The bar chart renderVendorPerformanceChart draws: one bar per vendor. */
  function VendorBars(vendors: seq<VendorRow>): (c: ChartConfig)
    ensures c.BarChart?
    ensures |c.labels| == |c.tripCounts| == |c.revenues| == |c.borderColors| == |vendors|
    ensures forall i | 0 <= i < |vendors| ::
      && c.labels[i] == VendorLabel(vendors[i])
      && c.tripCounts[i] == NumberOrZero(vendors[i].tripCount)
      && c.revenues[i] == NumberOrZero(vendors[i].totalRevenue)
      && c.borderColors[i] == BarPalette[i % 8]
  {
    BarChart(
      seq(|vendors|, i requires 0 <= i < |vendors| => VendorLabel(vendors[i])),
      seq(|vendors|, i requires 0 <= i < |vendors| => NumberOrZero(vendors[i].tripCount)),
      seq(|vendors|, i requires 0 <= i < |vendors| => NumberOrZero(vendors[i].totalRevenue)),
      Cycle(BarPalette, |vendors|))
  }

  // ---------------------------------------------------------------- the visualiser

  class DataVisualizer {
    /** this.charts.tripVolume and this.charts.vendorPerformance. */
    var tripVolume: Option<Chart>
    var vendorPerformance: Option<Chart>

    constructor ()
      ensures tripVolume.None? && vendorPerformance.None?
      ensures Distinct()
    {
      tripVolume, vendorPerformance := None, None;
    }

    /** The two slots never hold the same chart: every render makes a fresh one. */
    ghost predicate Distinct()
      reads this
    {
      tripVolume.None? || vendorPerformance.None? || tripVolume.value != vendorPerformance.value
    }

    /**
     * renderTripVolumeChart: without the canvas nothing happens; otherwise
     * the chart in the slot, if any, is destroyed and a new line chart of
     * the buckets takes its place.
     */
    method RenderTripVolumeChart(data: seq<HourBucket>, canvasPresent: bool)
      modifies this, Held(tripVolume)
      ensures vendorPerformance == old(vendorPerformance)
      ensures !canvasPresent ==> tripVolume == old(tripVolume) && unchanged(Held(old(tripVolume)))
      ensures canvasPresent ==>
        && (old(tripVolume).Some? ==> old(tripVolume).value.destroyed)
        && tripVolume.Some? && fresh(tripVolume.value) && !tripVolume.value.destroyed
        && tripVolume.value.config == LineChart(BucketLabels(data), BucketCounts(data))
    {
      if !canvasPresent {
        return;
      }
      if tripVolume.Some? {
        tripVolume.value.Destroy();
      }
      var chart := new Chart(LineChart(BucketLabels(data), BucketCounts(data)));
      tripVolume := Some(chart);
    }

    /** renderVendorPerformanceChart: the same slot discipline for the vendor bars. */
    method RenderVendorPerformanceChart(vendors: seq<VendorRow>, canvasPresent: bool)
      modifies this, Held(vendorPerformance)
      ensures tripVolume == old(tripVolume)
      ensures !canvasPresent ==> vendorPerformance == old(vendorPerformance) && unchanged(Held(old(vendorPerformance)))
      ensures canvasPresent ==>
        && (old(vendorPerformance).Some? ==> old(vendorPerformance).value.destroyed)
        && vendorPerformance.Some? && fresh(vendorPerformance.value) && !vendorPerformance.value.destroyed
        && vendorPerformance.value.config == VendorBars(vendors)
    {
      if !canvasPresent {
        return;
      }
      if vendorPerformance.Some? {
        vendorPerformance.value.Destroy();
      }
      var chart := new Chart(VendorBars(vendors));
      vendorPerformance := Some(chart);
    }

    /**
     * loadTripVolumeData: fetch up to 1000 trips under the date filters and
     * draw their hourly volume, but only when the list is non-empty; a failed
     * request draws nothing.
     */
    method LoadTripVolumeData(app: UrbanMobilityApp, outcome: FetchOutcome, canvasPresent: bool)
      modifies this, app, Held(tripVolume)
      ensures var e := TripVolumeEndpoint(old(app.filters));
        app.State() == old(app.State()).(cache := CacheAfter(old(app.cache), e, outcome))
      ensures vendorPerformance == old(vendorPerformance)
      ensures var r := ApiResult(old(app.cache), TripVolumeEndpoint(old(app.filters)), outcome);
        if r.Ok? && r.value.TripList? && |r.value.trips| > 0 && canvasPresent
        then
          && (old(tripVolume).Some? ==> old(tripVolume).value.destroyed)
          && tripVolume.Some? && fresh(tripVolume.value) && !tripVolume.value.destroyed
          && tripVolume.value.config == LineChart(HourLabels(), HourlyCounts(r.value.trips))
        else tripVolume == old(tripVolume) && unchanged(Held(old(tripVolume)))
    {
      var trips, fetched := app.ApiCall(TripVolumeEndpoint(app.filters), outcome);
      if trips.Ok? && trips.value.TripList? && |trips.value.trips| > 0 {
        var hourlyData := AggregateTripsByHour(trips.value.trips);
        BucketsChart(trips.value.trips, hourlyData);
        RenderTripVolumeChart(hourlyData, canvasPresent);
      }
    }

    /**
     * loadVendorPerformanceData: fetch the top eight vendors under the date
     * filters, name them through the vendor map and draw them, but only when
     * the list is non-empty.
     */
    method LoadVendorPerformanceData(app: UrbanMobilityApp, outcome: FetchOutcome, canvasPresent: bool)
      modifies this, app, Held(vendorPerformance)
      ensures var e := TopVendorsEndpoint(old(app.filters));
        app.State() == old(app.State()).(cache := CacheAfter(old(app.cache), e, outcome))
      ensures tripVolume == old(tripVolume)
      ensures var r := ApiResult(old(app.cache), TopVendorsEndpoint(old(app.filters)), outcome);
        if r.Ok? && r.value.VendorList? && |r.value.vendors| > 0 && canvasPresent
        then
          && (old(vendorPerformance).Some? ==> old(vendorPerformance).value.destroyed)
          && vendorPerformance.Some? && fresh(vendorPerformance.value) && !vendorPerformance.value.destroyed
          && vendorPerformance.value.config == VendorBars(NamedVendors(old(app.vendorMap), r.value.vendors))
        else vendorPerformance == old(vendorPerformance) && unchanged(Held(old(vendorPerformance)))
    {
      var vendors, fetched := app.ApiCall(TopVendorsEndpoint(app.filters), outcome);
      if vendors.Ok? && vendors.value.VendorList? && |vendors.value.vendors| > 0 {
        RenderVendorPerformanceChart(NamedVendors(app.vendorMap, vendors.value.vendors), canvasPresent);
      }
    }

    /**
     * updateCharts: reload the trip volume, then the vendor performance. Each
     * slot ends as its own load leaves it; the vendor request is answered
     * from the cache as the trip-volume request left it.
     */
    method UpdateCharts(app: UrbanMobilityApp, c: ChartFetches, tripCanvas: bool, vendorCanvas: bool)
      requires Distinct()
      modifies this, app, Held(tripVolume), Held(vendorPerformance)
      ensures Distinct()
      ensures app.State() == old(app.State()).(cache := ChartsCache(old(app.cache), old(app.filters), c))
      ensures var r := ApiResult(old(app.cache), TripVolumeEndpoint(old(app.filters)), c.tripVolume);
        if r.Ok? && r.value.TripList? && |r.value.trips| > 0 && tripCanvas
        then
          && (old(tripVolume).Some? ==> old(tripVolume).value.destroyed)
          && tripVolume.Some? && fresh(tripVolume.value) && !tripVolume.value.destroyed
          && tripVolume.value.config == LineChart(HourLabels(), HourlyCounts(r.value.trips))
        else tripVolume == old(tripVolume) && unchanged(Held(old(tripVolume)))
      ensures var afterTrips := CacheAfter(old(app.cache), TripVolumeEndpoint(old(app.filters)), c.tripVolume);
        var r := ApiResult(afterTrips, TopVendorsEndpoint(old(app.filters)), c.topVendors);
        if r.Ok? && r.value.VendorList? && |r.value.vendors| > 0 && vendorCanvas
        then
          && (old(vendorPerformance).Some? ==> old(vendorPerformance).value.destroyed)
          && vendorPerformance.Some? && fresh(vendorPerformance.value) && !vendorPerformance.value.destroyed
          && vendorPerformance.value.config == VendorBars(NamedVendors(old(app.vendorMap), r.value.vendors))
        else vendorPerformance == old(vendorPerformance) && unchanged(Held(old(vendorPerformance)))
    {
      LoadTripVolumeData(app, c.tripVolume, tripCanvas);
      LoadVendorPerformanceData(app, c.topVendors, vendorCanvas);
    }
  }
}
