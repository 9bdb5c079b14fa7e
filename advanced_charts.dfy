/**
 * AdvancedDataVisualizer of frontend/js/advanced-charts.js: the distance
 * versus fare scatter series, the borough tally behind the doughnut chart,
 * the revenue series, and the chart registry keyed by canvas id.
 */
module AdvancedVisualizer {
  import opened Wrappers
  import opened Text
  import opened Payloads
  import opened Charting
  import opened MobilityApp

  // ---------------------------------------------------------------- scatter series

  /** `t.trip_miles && t.base_passenger_fare`: both present and non-zero. */
  predicate Plottable(t: TripRow) {
    && t.tripMiles.Some? && t.tripMiles.value != 0.0
    && t.basePassengerFare.Some? && t.basePassengerFare.value != 0.0
  }

  function PointOf(t: TripRow): Point
    requires Plottable(t)
  {
    Point(t.tripMiles.value, t.basePassengerFare.value)
  }

  /** generateScatterData: the plottable trips, in order, as (miles, fare) points. */
  function ScatterData(trips: seq<TripRow>): (points: seq<Point>)
    ensures |points| <= |trips|
    decreases |trips|
  {
    if trips == [] then []
    else
      var last := trips[|trips| - 1];
      ScatterData(trips[..|trips| - 1]) + (if Plottable(last) then [PointOf(last)] else [])
  }

  /**
   * The series of a concatenation is the concatenation of the series: the
   * filter keeps the trips' order and looks at each trip on its own.
   */
  lemma {:induction false} ScatterDataAppend(a: seq<TripRow>, b: seq<TripRow>)
    ensures ScatterData(a + b) == ScatterData(a) + ScatterData(b)
    decreases |b|
  {
    if b == [] {
      assert a + b == a;
    } else {
      var init := b[..|b| - 1];
      ScatterDataAppend(a, init);
      assert (a + b)[..|a + b| - 1] == a + init;
    }
  }

  /** A point is in the series exactly when some plottable trip maps to it. */
  lemma {:induction false} ScatterDataMembers(trips: seq<TripRow>, p: Point)
    ensures p in ScatterData(trips) <==> exists t | t in trips :: Plottable(t) && PointOf(t) == p
    decreases |trips|
  {
    if trips != [] {
      var init := trips[..|trips| - 1];
      ScatterDataMembers(init, p);
      assert trips == init + [trips[|trips| - 1]];
    }
  }

  // ---------------------------------------------------------------- borough tally

  /** `loc.borough || 'Unknown'`. */
  function EffectiveBorough(loc: LocationRow): (name: string)
    ensures name != ""
  {
    OrElse(loc.borough, "Unknown")
  }

  function Boroughs(locations: seq<LocationRow>): (names: seq<string>)
    ensures |names| == |locations|
    ensures forall i | 0 <= i < |locations| :: names[i] == EffectiveBorough(locations[i])
  {
    seq(|locations|, i requires 0 <= i < |locations| => EffectiveBorough(locations[i]))
  }

  /** Every element occurs once. */
  ghost predicate NoDuplicates(s: seq<string>) {
    forall x | x in multiset(s) :: multiset(s)[x] == 1
  }

  /** The distinct names in the order each first occurs: the insertion order of the keys of boroughCounts. */
  function FirstSeen(names: seq<string>): (keys: seq<string>)
    ensures forall x :: x in keys <==> x in names
    ensures NoDuplicates(keys)
    decreases |names|
  {
    if names == [] then []
    else
      var init := names[..|names| - 1];
      var last := names[|names| - 1];
      assert names == init + [last];
      var seen := FirstSeen(init);
      if last in seen then seen else seen + [last]
  }

  /** A key JavaScript treats as an array index: a canonical decimal below 2^32 - 1. */
  predicate IsArrayIndex(s: string) {
    && |s| >= 1 && AllDigits(s) && (|s| == 1 || s[0] != '0')
    && DigitsValue(s) < 0xFFFF_FFFF
  }

  /** Array-index keys in ascending numeric order. */
  ghost predicate Ascending(s: seq<string>) {
    && (forall i | 0 <= i < |s| :: IsArrayIndex(s[i]))
    && (forall i, j | 0 <= i < j < |s| :: DigitsValue(s[i]) <= DigitsValue(s[j]))
  }

  function InsertByValue(k: string, sorted: seq<string>): (r: seq<string>)
    requires IsArrayIndex(k) && Ascending(sorted)
    ensures forall x :: x in r <==> x in sorted || x == k
    decreases |sorted|
  {
    if sorted == [] || DigitsValue(k) <= DigitsValue(sorted[0]) then [k] + sorted
    else [sorted[0]] + InsertByValue(k, sorted[1..])
  }

  /** Inserting an index key keeps the keys ascending. */
  lemma {:induction false} InsertByValueAscending(k: string, sorted: seq<string>)
    requires IsArrayIndex(k) && Ascending(sorted)
    ensures Ascending(InsertByValue(k, sorted))
    decreases |sorted|
  {
    if sorted == [] || DigitsValue(k) <= DigitsValue(sorted[0]) {
      forall j | 0 <= j < |sorted| ensures DigitsValue(k) <= DigitsValue(sorted[j]) {
        if j > 0 {
          assert DigitsValue(sorted[0]) <= DigitsValue(sorted[j]);
        }
      }
      AscendingCons(k, sorted);
    } else {
      var rest := InsertByValue(k, sorted[1..]);
      InsertByValueAscending(k, sorted[1..]);
      forall j | 0 <= j < |rest| ensures DigitsValue(sorted[0]) <= DigitsValue(rest[j]) {
        assert rest[j] in rest;
      }
      AscendingCons(sorted[0], rest);
    }
  }

  /** A key no larger than any of an ascending list can go in front of it. */
  lemma AscendingCons(h: string, rest: seq<string>)
    requires IsArrayIndex(h) && Ascending(rest)
    requires forall j | 0 <= j < |rest| :: DigitsValue(h) <= DigitsValue(rest[j])
    ensures Ascending([h] + rest)
  {
    var s := [h] + rest;
    forall i, j | 0 <= i < j < |s| ensures DigitsValue(s[i]) <= DigitsValue(s[j]) {
      assert s[j] == rest[j - 1];
      if i > 0 {
        assert s[i] == rest[i - 1];
      }
    }
  }

  lemma {:induction false} InsertByValuePermutes(k: string, sorted: seq<string>)
    requires IsArrayIndex(k) && Ascending(sorted)
    ensures multiset(InsertByValue(k, sorted)) == multiset(sorted) + multiset{k}
    decreases |sorted|
  {
    if sorted != [] && DigitsValue(k) > DigitsValue(sorted[0]) {
      InsertByValuePermutes(k, sorted[1..]);
      assert sorted == [sorted[0]] + sorted[1..];
    }
  }

  /** The array-index keys, ascending. */
  function IndexKeys(keys: seq<string>): (r: seq<string>)
    ensures Ascending(r)
    decreases |keys|
  {
    if keys == [] then []
    else
      var k := keys[|keys| - 1];
      var init := IndexKeys(keys[..|keys| - 1]);
      if IsArrayIndex(k) then InsertByValueAscending(k, init); InsertByValue(k, init) else init
  }

  /** The other keys, in insertion order. */
  function OtherKeys(keys: seq<string>): (r: seq<string>)
    ensures forall i | 0 <= i < |r| :: !IsArrayIndex(r[i])
    decreases |keys|
  {
    if keys == [] then []
    else
      var k := keys[|keys| - 1];
      OtherKeys(keys[..|keys| - 1]) + (if IsArrayIndex(k) then [] else [k])
  }

  /**
   * Object.keys on an object whose keys were inserted in the order `keys`:
   * every array-index key comes before every other key, and the array-index
   * keys ascend by numeric value (ObjectKeysPermutes: each key once).
   */
  function ObjectKeys(keys: seq<string>): (r: seq<string>)
    ensures forall i, j | 0 <= i < j < |r| && IsArrayIndex(r[j]) ::
      IsArrayIndex(r[i]) && DigitsValue(r[i]) <= DigitsValue(r[j])
  {
    IndexKeys(keys) + OtherKeys(keys)
  }

  /** Object.keys lists each inserted key once. */
  lemma {:induction false} ObjectKeysPermutes(keys: seq<string>)
    ensures multiset(ObjectKeys(keys)) == multiset(keys)
    decreases |keys|
  {
    if keys != [] {
      var init := keys[..|keys| - 1];
      var k := keys[|keys| - 1];
      ObjectKeysPermutes(init);
      assert keys == init + [k];
      if IsArrayIndex(k) {
        InsertByValuePermutes(k, IndexKeys(init));
      }
    }
  }

  /** With no array-index key, Object.keys is the insertion order. */
  lemma {:induction false} ObjectKeysOfNames(keys: seq<string>)
    requires forall i | 0 <= i < |keys| :: !IsArrayIndex(keys[i])
    ensures ObjectKeys(keys) == keys
    decreases |keys|
  {
    if keys != [] {
      var init := keys[..|keys| - 1];
      ObjectKeysOfNames(init);
      assert keys == init + [keys[|keys| - 1]];
    }
  }

  datatype BoroughData = BoroughData(labels: seq<string>, data: seq<nat>)

  /** The multiplicity of each label in m, in label order. */
  function Multiplicities(labels: seq<string>, m: multiset<string>): (counts: seq<nat>)
    ensures |counts| == |labels|
    ensures forall i | 0 <= i < |labels| :: counts[i] == m[labels[i]]
  {
    seq(|labels|, i requires 0 <= i < |labels| => m[labels[i]])
  }

  /** What aggregateByBorough returns: Object.keys of the tally, and each key's number of locations. */
  function BoroughCounts(locations: seq<LocationRow>): BoroughData {
    var labels := ObjectKeys(FirstSeen(Boroughs(locations)));
    BoroughData(labels, Multiplicities(labels, multiset(Boroughs(locations))))
  }

  function Total(data: seq<nat>): nat {
    if data == [] then 0 else Total(data[..|data| - 1]) + data[|data| - 1]
  }

  /** The tally has one label per distinct effective borough, and no other. */
  lemma BoroughLabels(locations: seq<LocationRow>)
    ensures var d := BoroughCounts(locations);
      && |d.labels| == |d.data|
      && NoDuplicates(d.labels)
      && (forall x :: x in d.labels <==> x in Boroughs(locations))
  {
    var seen := FirstSeen(Boroughs(locations));
    ObjectKeysPermutes(seen);
    assert forall x :: x in ObjectKeys(seen) <==> x in multiset(seen);
  }

  /** Each count is the number of locations under its label, and every label counts at least one. */
  lemma BoroughCountsPositive(locations: seq<LocationRow>)
    ensures var d := BoroughCounts(locations);
      forall i | 0 <= i < |d.data| ::
        i < |d.labels| && d.data[i] == multiset(Boroughs(locations))[d.labels[i]] >= 1
  {
    var d := BoroughCounts(locations);
    BoroughLabels(locations);
    forall i | 0 <= i < |d.data| ensures i < |d.labels| && d.data[i] == multiset(Boroughs(locations))[d.labels[i]] >= 1 {
      assert d.labels[i] in d.labels;
      assert d.labels[i] in multiset(Boroughs(locations));
    }
  }

  /** The counts add up to the number of locations: every location is counted once. */
  lemma BoroughTotal(locations: seq<LocationRow>)
    ensures Total(BoroughCounts(locations).data) == |locations|
  {
    var d := BoroughCounts(locations);
    BoroughLabels(locations);
    TotalOfMultiplicities(d.labels, multiset(Boroughs(locations)));
  }

  /** Without a borough name that looks like an array index, the labels come in first-seen order. */
  lemma BoroughFirstSeenOrder(locations: seq<LocationRow>)
    requires forall i | 0 <= i < |locations| :: !IsArrayIndex(EffectiveBorough(locations[i]))
    ensures BoroughCounts(locations).labels == FirstSeen(Boroughs(locations))
  {
    var names := Boroughs(locations);
    var seen := FirstSeen(names);
    forall i | 0 <= i < |seen| ensures !IsArrayIndex(seen[i]) {
      assert seen[i] in names;
    }
    ObjectKeysOfNames(seen);
  }

  /** Summing the multiplicities of distinct labels that cover a multiset gives its size. */
  lemma {:induction false} TotalOfMultiplicities(labels: seq<string>, m: multiset<string>)
    requires NoDuplicates(labels)
    requires forall x | x in m :: x in labels
    ensures Total(Multiplicities(labels, m)) == |m|
    decreases |labels|
  {
    var counts := Multiplicities(labels, m);
    if labels == [] {
      assert m == multiset{};
    } else {
      var init := labels[..|labels| - 1];
      var l := labels[|labels| - 1];
      DistinctInit(labels);
      var rest := m[l := 0];
      forall x | x in rest ensures x in init {
        assert x in m && x != l;
      }
      TotalOfMultiplicities(init, rest);
      assert Multiplicities(init, rest) == Multiplicities(init, m);
      assert counts[..|counts| - 1] == Multiplicities(init, m);
    }
  }

  /** Dropping the last of distinct labels leaves distinct labels without it. */
  lemma DistinctInit(labels: seq<string>)
    requires NoDuplicates(labels) && labels != []
    ensures NoDuplicates(labels[..|labels| - 1])
    ensures labels[|labels| - 1] !in labels[..|labels| - 1]
  {
    var init := labels[..|labels| - 1];
    var l := labels[|labels| - 1];
    assert labels == init + [l];
    assert multiset(labels) == multiset(init) + multiset{l};
    assert l !in init by {
      assert multiset(labels)[l] == 1;
    }
    forall x | x in multiset(init) ensures multiset(init)[x] == 1 {
      assert multiset(labels)[x] == multiset(init)[x] + (if x == l then 1 else 0);
    }
  }

  /** boroughCounts and its key order after the names so far. */
  ghost predicate TallyOf(names: seq<string>, counts: map<string, nat>, insertion: seq<string>) {
    && insertion == FirstSeen(names)
    && (forall x :: x in counts <==> x in insertion)
    && (forall x | x in counts :: counts[x] == multiset(names)[x])
  }

  /** boroughCounts and the order its keys were inserted in. */
  datatype Tally = Tally(counts: map<string, nat>, insertion: seq<string>)

  /** The tally after counting `names` one by one, as aggregateByBorough's loop does. */
  function TallyNames(names: seq<string>): Tally {
    if names == [] then Tally(map[], [])
    else
      var t := TallyNames(names[..|names| - 1]);
      var b := names[|names| - 1];
      if b in t.counts then Tally(t.counts[b := t.counts[b] + 1], t.insertion)
      else Tally(t.counts[b := 1], t.insertion + [b])
  }

  /** The tally holds, for every name seen, its number of occurrences, and its keys in first-seen order. */
  lemma {:induction false} TallyNamesCorrect(names: seq<string>)
    ensures var t := TallyNames(names); TallyOf(names, t.counts, t.insertion)
    decreases |names|
  {
    if names != [] {
      var init, b := names[..|names| - 1], names[|names| - 1];
      TallyNamesCorrect(init);
      TallyStep(names, TallyNames(init));
    }
  }

  /** One location more: its name joins the keys if new, and its count grows by one. */
  lemma TallyStep(names: seq<string>, t: Tally)
    requires names != [] && TallyOf(names[..|names| - 1], t.counts, t.insertion)
    ensures var b := names[|names| - 1];
      b in t.counts ==> TallyOf(names, t.counts[b := t.counts[b] + 1], t.insertion)
    ensures var b := names[|names| - 1];
      b !in t.counts ==> TallyOf(names, t.counts[b := 1], t.insertion + [b])
  {
    var init, b := names[..|names| - 1], names[|names| - 1];
    assert names == init + [b];
    assert multiset(names) == multiset(init) + multiset{b};
    if b in t.counts {
      TallySeen(init, b, t);
    } else {
      TallyUnseen(init, b, t);
    }
  }

  lemma TallySeen(init: seq<string>, b: string, t: Tally)
    requires TallyOf(init, t.counts, t.insertion) && b in t.counts
    ensures TallyOf(init + [b], t.counts[b := t.counts[b] + 1], t.insertion)
  {
    var names := init + [b];
    assert names[..|names| - 1] == init;
    var m := multiset(names);
    assert m == multiset(init) + multiset{b};
    assert b in t.insertion && b in init;
    assert FirstSeen(names) == t.insertion;
    var counts := t.counts[b := t.counts[b] + 1];
    forall x | x in counts ensures counts[x] == m[x] {
      if x != b { assert counts[x] == t.counts[x]; }
    }
  }

  lemma TallyUnseen(init: seq<string>, b: string, t: Tally)
    requires TallyOf(init, t.counts, t.insertion) && b !in t.counts
    ensures TallyOf(init + [b], t.counts[b := 1], t.insertion + [b])
  {
    var names := init + [b];
    assert names[..|names| - 1] == init;
    var m := multiset(names);
    assert m == multiset(init) + multiset{b};
    assert b !in t.insertion && b !in init;
    assert FirstSeen(names) == t.insertion + [b];
    assert b !in multiset(init);
    var counts := t.counts[b := 1];
    forall x | x in counts ensures counts[x] == m[x] {
      if x != b { assert counts[x] == t.counts[x]; }
    }
  }

  /** The values of the tally, read in the order of `keys`. */
  function ReadBack(counts: map<string, nat>, keys: seq<string>): (data: seq<nat>)
    requires forall k | k in keys :: k in counts
    ensures |data| == |keys|
    ensures forall j | 0 <= j < |keys| :: data[j] == counts[keys[j]]
  {
    seq(|keys|, j requires 0 <= j < |keys| => counts[keys[j]])
  }

  /** Every key Object.keys lists has a tally entry. */
  lemma KeysAreTallied(counts: map<string, nat>, insertion: seq<string>)
    requires forall x :: x in counts <==> x in insertion
    ensures forall x | x in ObjectKeys(insertion) :: x in counts
  {
    ObjectKeysPermutes(insertion);
    assert forall x | x in ObjectKeys(insertion) :: x in multiset(insertion);
  }

  /** A complete tally of the borough names, read back in Object.keys order, is BoroughCounts. */
  lemma TallyReadBack(locations: seq<LocationRow>, counts: map<string, nat>, insertion: seq<string>)
    requires TallyOf(Boroughs(locations), counts, insertion)
    ensures forall x | x in ObjectKeys(insertion) :: x in counts
    ensures BoroughData(ObjectKeys(insertion), ReadBack(counts, ObjectKeys(insertion))) == BoroughCounts(locations)
  {
    KeysAreTallied(counts, insertion);
    var labels := ObjectKeys(insertion);
    var m := multiset(Boroughs(locations));
    var data := ReadBack(counts, labels);
    assert labels == BoroughCounts(locations).labels;
    forall j | 0 <= j < |labels| ensures data[j] == m[labels[j]] {
      assert labels[j] in counts;
    }
    assert data == Multiplicities(labels, m);
  }

  /**
   * aggregateByBorough: tally each location under its effective borough,
   * then read the keys and values back in Object.keys order.
   */
  method AggregateByBorough(locations: seq<LocationRow>) returns (chartData: BoroughData)
    ensures chartData == BoroughCounts(locations)
  {
    ghost var names := Boroughs(locations);
    var boroughCounts: map<string, nat> := map[];
    var insertion: seq<string> := [];
    var i := 0;
    while i < |locations|
      invariant 0 <= i <= |locations|
      invariant Tally(boroughCounts, insertion) == TallyNames(names[..i])
    {
      var borough := EffectiveBorough(locations[i]);
      assert names[..i + 1][..i] == names[..i];
      if borough in boroughCounts {
        boroughCounts := boroughCounts[borough := boroughCounts[borough] + 1];
      } else {
        boroughCounts := boroughCounts[borough := 1];
        insertion := insertion + [borough];
      }
      i := i + 1;
    }
    assert names[..i] == names;
    TallyNamesCorrect(names);
    TallyReadBack(locations, boroughCounts, insertion);
    var labels := ObjectKeys(insertion);
    chartData := BoroughData(labels, ReadBack(boroughCounts, labels));
  }

  /** The doughnut chart of the tally; border colour i is chartPalette[i % 8]. */
  function BoroughDoughnut(chartData: BoroughData): (c: ChartConfig)
    ensures c.DoughnutChart? && c.labels == chartData.labels && c.data == chartData.data
    ensures |c.borderColors| == |chartData.labels|
    ensures forall i | 0 <= i < |chartData.labels| :: c.borderColors[i] == ChartPalette[i % 8]
  {
    DoughnutChart(chartData.labels, chartData.data, Cycle(ChartPalette, |chartData.labels|))
  }

  // ---------------------------------------------------------------- revenue series

  /** createRevenueChart's series: label `name || id`, revenue and average fare defaulting to 0. */
  function RevenueSeries(vendors: seq<VendorRow>): (c: ChartConfig)
    ensures c.RevenueChart?
    ensures |c.labels| == |c.revenues| == |c.avgFares| == |vendors|
    ensures forall i | 0 <= i < |vendors| ::
      && c.labels[i] == OrElse(vendors[i].vendorName, vendors[i].vendorId)
      && c.revenues[i] == NumberOrZero(vendors[i].totalRevenue)
      && c.avgFares[i] == NumberOrZero(vendors[i].avgBaseFare)
  {
    RevenueChart(
      seq(|vendors|, i requires 0 <= i < |vendors| => OrElse(vendors[i].vendorName, vendors[i].vendorId)),
      seq(|vendors|, i requires 0 <= i < |vendors| => NumberOrZero(vendors[i].totalRevenue)),
      seq(|vendors|, i requires 0 <= i < |vendors| => NumberOrZero(vendors[i].avgBaseFare)))
  }

  // ---------------------------------------------------------------- canvases

  const ScatterCanvas := "distance-fare-scatter"
  const BoroughCanvas := "borough-distribution-chart"
  const RevenueCanvas := "revenue-analysis-chart"

  /** The chart registered under an id, as a frame. */
  function ChartsAt(charts: map<string, Chart>, canvasId: string): set<Chart> {
    if canvasId in charts then {charts[canvasId]} else {}
  }

  /** What renderDistanceFareScatter draws for its answer: a trip list is plotted, anything else draws nothing. */
  predicate ScatterDrawn(r: Result<Body, ApiError>, canvasPresent: bool, drawn: Option<Chart>) {
    if r.Ok? && r.value.TripList? && canvasPresent
    then drawn.Some? && drawn.value.config == ScatterChart(ScatterData(r.value.trips))
    else drawn.None?
  }

  /** What renderBoroughDistribution draws for its answer: a location list is tallied and drawn. */
  predicate BoroughDrawn(r: Result<Body, ApiError>, canvasPresent: bool, drawn: Option<Chart>) {
    if r.Ok? && r.value.LocationList? && canvasPresent
    then drawn.Some? && drawn.value.config == BoroughDoughnut(BoroughCounts(r.value.locations))
    else drawn.None?
  }

  /** What renderRevenueAnalysis draws for its answer: a non-empty vendor list, named through `vendorMap`. */
  predicate RevenueDrawn(r: Result<Body, ApiError>, vendorMap: map<string, string>, canvasPresent: bool, drawn: Option<Chart>) {
    if r.Ok? && r.value.VendorList? && |r.value.vendors| > 0 && canvasPresent
    then drawn.Some? && drawn.value.config == RevenueSeries(NamedVendors(vendorMap, r.value.vendors))
    else drawn.None?
  }

  /** The registry after a renderer: the chart it drew, if any, registered under its canvas, every other entry kept. */
  function Place(charts: map<string, Chart>, canvasId: string, drawn: Option<Chart>): (r: map<string, Chart>)
    ensures drawn.Some? ==> canvasId in r && r[canvasId] == drawn.value
    ensures drawn.None? ==> r == charts
    ensures r.Keys <= charts.Keys + {canvasId}
    ensures forall id | id != canvasId :: (id in r <==> id in charts) && (id in r ==> r[id] == charts[id])
  {
    if drawn.Some? then charts[canvasId := drawn.value] else charts
  }

  // ---------------------------------------------------------------- the visualiser

  class AdvancedDataVisualizer {
    /** this.charts: canvas id to the chart drawn on it. */
    var charts: map<string, Chart>

    constructor ()
      ensures charts == map[]
    {
      charts := map[];
    }

    /**
     * The body every create*Chart shares: without the canvas nothing
     * happens; otherwise the chart registered under the id, if any, is
     * destroyed and the new chart takes its place, the other entries staying.
     */
    method Replace(canvasId: string, config: ChartConfig, canvasPresent: bool)
      modifies this, ChartsAt(charts, canvasId)
      ensures !canvasPresent ==> charts == old(charts) && unchanged(ChartsAt(old(charts), canvasId))
      ensures canvasPresent ==>
        && (canvasId in old(charts) ==> old(charts)[canvasId].destroyed)
        && canvasId in charts && fresh(charts[canvasId]) && !charts[canvasId].destroyed
        && charts[canvasId].config == config
        && charts == old(charts)[canvasId := charts[canvasId]]
    {
      if !canvasPresent {
        return;
      }
      if canvasId in charts {
        charts[canvasId].Destroy();
      }
      var chart := new Chart(config);
      charts := charts[canvasId := chart];
    }

    /** createScatterChart. */
    method CreateScatterChart(canvasId: string, data: seq<Point>, canvasPresent: bool)
      modifies this, ChartsAt(charts, canvasId)
      ensures !canvasPresent ==> charts == old(charts) && unchanged(ChartsAt(old(charts), canvasId))
      ensures canvasPresent ==>
        && (canvasId in old(charts) ==> old(charts)[canvasId].destroyed)
        && canvasId in charts && fresh(charts[canvasId]) && !charts[canvasId].destroyed
        && charts[canvasId].config == ScatterChart(data)
        && charts == old(charts)[canvasId := charts[canvasId]]
    {
      Replace(canvasId, ScatterChart(data), canvasPresent);
    }

    /** createDoughnutChart. */
    method CreateDoughnutChart(canvasId: string, chartData: BoroughData, canvasPresent: bool)
      modifies this, ChartsAt(charts, canvasId)
      ensures !canvasPresent ==> charts == old(charts) && unchanged(ChartsAt(old(charts), canvasId))
      ensures canvasPresent ==>
        && (canvasId in old(charts) ==> old(charts)[canvasId].destroyed)
        && canvasId in charts && fresh(charts[canvasId]) && !charts[canvasId].destroyed
        && charts[canvasId].config == BoroughDoughnut(chartData)
        && charts == old(charts)[canvasId := charts[canvasId]]
    {
      Replace(canvasId, BoroughDoughnut(chartData), canvasPresent);
    }

    /** createRevenueChart. */
    method CreateRevenueChart(canvasId: string, vendors: seq<VendorRow>, canvasPresent: bool)
      modifies this, ChartsAt(charts, canvasId)
      ensures !canvasPresent ==> charts == old(charts) && unchanged(ChartsAt(old(charts), canvasId))
      ensures canvasPresent ==>
        && (canvasId in old(charts) ==> old(charts)[canvasId].destroyed)
        && canvasId in charts && fresh(charts[canvasId]) && !charts[canvasId].destroyed
        && charts[canvasId].config == RevenueSeries(vendors)
        && charts == old(charts)[canvasId := charts[canvasId]]
    {
      Replace(canvasId, RevenueSeries(vendors), canvasPresent);
    }

    /**
     * renderDistanceFareScatter: a trip list is plotted; anything else, or a
     * failed request, draws nothing. `drawn` names the chart it registers.
     */
    method RenderDistanceFareScatter(app: UrbanMobilityApp, outcome: FetchOutcome, canvasPresent: bool) returns (ghost drawn: Option<Chart>)
      modifies this, app, ChartsAt(charts, ScatterCanvas)
      ensures app.State() == old(app.State()).(cache := CacheAfter(old(app.cache), ScatterTripsEndpoint, outcome))
      ensures ScatterDrawn(ApiResult(old(app.cache), ScatterTripsEndpoint, outcome), canvasPresent, drawn)
      ensures charts == Place(old(charts), ScatterCanvas, drawn)
      ensures drawn.Some? ==> fresh(drawn.value) && !drawn.value.destroyed
      ensures drawn.Some? && ScatterCanvas in old(charts) ==> old(charts)[ScatterCanvas].destroyed
      ensures drawn.None? ==> unchanged(ChartsAt(old(charts), ScatterCanvas))
    {
      drawn := None;
      var trips, fetched := app.ApiCall(ScatterTripsEndpoint, outcome);
      if trips.Ok? && trips.value.TripList? {
        CreateScatterChart(ScatterCanvas, ScatterData(trips.value.trips), canvasPresent);
        if canvasPresent {
          drawn := Some(charts[ScatterCanvas]);
        }
      }
    }

    /** renderBoroughDistribution: a location list is tallied and drawn; anything else draws nothing. */
    method RenderBoroughDistribution(app: UrbanMobilityApp, outcome: FetchOutcome, canvasPresent: bool) returns (ghost drawn: Option<Chart>)
      modifies this, app, ChartsAt(charts, BoroughCanvas)
      ensures app.State() == old(app.State()).(cache := CacheAfter(old(app.cache), BoroughLocationsEndpoint, outcome))
      ensures BoroughDrawn(ApiResult(old(app.cache), BoroughLocationsEndpoint, outcome), canvasPresent, drawn)
      ensures charts == Place(old(charts), BoroughCanvas, drawn)
      ensures drawn.Some? ==> fresh(drawn.value) && !drawn.value.destroyed
      ensures drawn.Some? && BoroughCanvas in old(charts) ==> old(charts)[BoroughCanvas].destroyed
      ensures drawn.None? ==> unchanged(ChartsAt(old(charts), BoroughCanvas))
    {
      drawn := None;
      var locations, fetched := app.ApiCall(BoroughLocationsEndpoint, outcome);
      if locations.Ok? && locations.value.LocationList? {
        var boroughData := AggregateByBorough(locations.value.locations);
        CreateDoughnutChart(BoroughCanvas, boroughData, canvasPresent);
        if canvasPresent {
          drawn := Some(charts[BoroughCanvas]);
        }
      }
    }

    /** renderRevenueAnalysis: an empty vendor list, or no list, draws nothing; otherwise the named vendors are drawn. */
    method RenderRevenueAnalysis(app: UrbanMobilityApp, outcome: FetchOutcome, canvasPresent: bool) returns (ghost drawn: Option<Chart>)
      modifies this, app, ChartsAt(charts, RevenueCanvas)
      ensures app.State() == old(app.State()).(cache := CacheAfter(old(app.cache), RevenueVendorsEndpoint, outcome))
      ensures RevenueDrawn(ApiResult(old(app.cache), RevenueVendorsEndpoint, outcome), old(app.vendorMap), canvasPresent, drawn)
      ensures charts == Place(old(charts), RevenueCanvas, drawn)
      ensures drawn.Some? ==> fresh(drawn.value) && !drawn.value.destroyed
      ensures drawn.Some? && RevenueCanvas in old(charts) ==> old(charts)[RevenueCanvas].destroyed
      ensures drawn.None? ==> unchanged(ChartsAt(old(charts), RevenueCanvas))
    {
      drawn := None;
      var vendors, fetched := app.ApiCall(RevenueVendorsEndpoint, outcome);
      if vendors.Ok? && vendors.value.VendorList? && |vendors.value.vendors| > 0 {
        CreateRevenueChart(RevenueCanvas, NamedVendors(app.vendorMap, vendors.value.vendors), canvasPresent);
        if canvasPresent {
          drawn := Some(charts[RevenueCanvas]);
        }
      }
    }

    /**
     * initializeAllCharts: the scatter, the borough doughnut and the revenue
     * chart, run together under Promise.all and each catching its own
     * failure, so all three requests are made. The three requests are for
     * different endpoints, so each canvas ends as its renderer draws it from
     * the cache as it was on entry, whatever order they run in; the registry
     * gains exactly the fresh charts drawn, and no other entry changes.
     */
    method InitializeAllCharts(app: UrbanMobilityApp, a: AdvancedFetches, scatterShown: bool, boroughShown: bool, revenueShown: bool)
      returns (ghost scatter: Option<Chart>, ghost borough: Option<Chart>, ghost revenue: Option<Chart>)
      modifies this, app, ChartsAt(charts, ScatterCanvas), ChartsAt(charts, BoroughCanvas), ChartsAt(charts, RevenueCanvas)
      ensures app.State() == old(app.State()).(cache := AdvancedCache(old(app.cache), a))
      ensures ScatterDrawn(ApiResult(old(app.cache), ScatterTripsEndpoint, a.scatter), scatterShown, scatter)
      ensures BoroughDrawn(ApiResult(old(app.cache), BoroughLocationsEndpoint, a.boroughs), boroughShown, borough)
      ensures RevenueDrawn(ApiResult(old(app.cache), RevenueVendorsEndpoint, a.revenue), old(app.vendorMap), revenueShown, revenue)
      ensures charts == Place(Place(Place(old(charts), ScatterCanvas, scatter), BoroughCanvas, borough), RevenueCanvas, revenue)
      ensures scatter.Some? ==> fresh(scatter.value)
      ensures borough.Some? ==> fresh(borough.value)
      ensures revenue.Some? ==> fresh(revenue.value)
    {
      ApiCallIndependent(app.cache, ScatterTripsEndpoint, a.scatter, BoroughLocationsEndpoint, a.boroughs);
      ApiCallIndependent(app.cache, ScatterTripsEndpoint, a.scatter, RevenueVendorsEndpoint, a.revenue);
      ApiCallIndependent(CacheAfter(app.cache, ScatterTripsEndpoint, a.scatter), BoroughLocationsEndpoint, a.boroughs,
        RevenueVendorsEndpoint, a.revenue);
      scatter := RenderDistanceFareScatter(app, a.scatter, scatterShown);
      borough := RenderBoroughDistribution(app, a.boroughs, boroughShown);
      revenue := RenderRevenueAnalysis(app, a.revenue, revenueShown);
    }

    /** destroyAllCharts: destroy every registered chart, then empty the registry. */
    method DestroyAllCharts()
      modifies this, charts.Values
      ensures charts == map[]
      ensures forall c | c in old(charts).Values :: c.destroyed
    {
      var all := charts.Values;
      var remaining := all;
      while remaining != {}
        invariant remaining <= all
        invariant forall c | c in all - remaining :: c.destroyed
        decreases remaining
      {
        var chart :| chart in remaining;
        chart.Destroy();
        remaining := remaining - {chart};
      }
      charts := map[];
    }
  }
}
