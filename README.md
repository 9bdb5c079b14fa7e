# Urban mobility data explorer: a verified model of its core logic

This project models, in Dafny, the logic of the urban mobility data explorer
that does not depend on the browser or the database. The system loads
cleaned NYC for-hire trip records into a database, serves them over a REST
API, and shows them in a browser dashboard. The model covers five groups of
logic:

- **Hand-written algorithms of the back end** (`backend/app/utils/custom_algorithms.py`):
  - the three-way QuickSort `manual_sort`;
  - the linear-interpolation percentile;
  - IQR outlier detection, which keeps its quartiles and fences on the detector object;
  - the array-backed binary min-heap;
  - the heap-based selection of the k longest trips.
- **The dashboard's client state** (`frontend/js/main.js`, class `UrbanMobilityApp`):
  - the filter, sort and pagination fields, with the event handlers that move them;
  - the request parameters of `loadTrips` and `loadLocations`;
  - the response cache of `apiCall` and the vendor-name map;
  - `formatDuration` and the peak-hour reduction of the analytics view.
- **The chart series and chart slots of `DataVisualizer`** (`frontend/js/charts.js`):
  - the zero-filled 24-hour trip-volume series;
  - the vendor bars with their cycling colours;
  - the thousands tick rule;
  - the two chart slots that every render destroys and refills.
- **The series and chart registry of `AdvancedDataVisualizer`** (`frontend/js/advanced-charts.js`):
  - the distance/fare scatter series;
  - the borough tally behind the doughnut chart, including the key order JavaScript's `Object.keys` imposes;
  - the revenue series;
  - the canvas-id registry that `create*Chart` and `destroyAllCharts` maintain.
- **ETL value normalisation** (`backend/etl/load.py`):
  - Python's `str.strip`;
  - `_normalize_vendor_id` and `_safe_decimal` with the per-column caps;
  - `load_data`'s row filter;
  - the sorted distinct vendor table of `load_vendors`;
  - the fixed-size batching loop of `load_trips`.

The model keeps the source's form. Code that updates state in place is a
Dafny `class`:

- `OutlierDetector`, `CustomMinHeap`, `UrbanMobilityApp`, `DataVisualizer` and
  `AdvancedDataVisualizer` are classes whose methods carry `modifies` clauses.
- The loops of `bubble_up`, `bubble_down`, `detect_outliers`,
  `find_top_k_trips_by_duration`, `aggregateTripsByHour`, `aggregateByBorough`,
  the peak-hour tally and `load_trips` are `while` loops. Each is proved
  against a specification function.

Expressions and recursion are functions, and the promised properties are
lemmas about those functions.

Numbers are exact: fares, distances and durations are `real`, so the
model does not capture IEEE rounding. Anything that comes from outside is a
parameter:

- what `fetch` returned (`FetchOutcome`);
- whether a canvas exists;
- the hour `getHours` would extract (`Option<Hour>`);
- a CSV cell (`Cell`).

Files:

| file | module | models |
|---|---|---|
| wrappers.dfy | Wrappers | Option and Result |
| text.dfy | Text | decimal rendering of whole numbers, `padStart(2, '0')` |
| hours.dfy | Hours | hours of the day, hour labels, per-hour tallies |
| payloads.dfy | Payloads | decoded API bodies and JavaScript truthiness |
| charting.dfy | Charting | Chart.js chart objects and colour palettes |
| outlier_detector.dfy | OutlierDetection | `manual_sort`, `calculate_percentile`, `OutlierDetector` |
| min_heap.dfy | MinHeap | `CustomMinHeap` |
| top_trips.dfy | TopTrips | `find_top_k_trips_by_duration` |
| app.dfy | MobilityApp | `UrbanMobilityApp` |
| charts.dfy | Visualizer | `DataVisualizer` |
| advanced_charts.dfy | AdvancedVisualizer | `AdvancedDataVisualizer` |
| etl_load.dfy | EtlLoad | vendor-id normalisation, decimals, `load_vendors`, `load_trips` |

## Model

| member | source | states |
|---|---|---|
| OutlierDetection.Partition | backend/app/utils/custom_algorithms.py:35-45 | every value in `left` is below the pivot, every one in `middle` equals it, every one in `right` is above it, and the three sizes add up to the input's |
| OutlierDetection.PartitionPermutes | backend/app/utils/custom_algorithms.py:39-45 | the three lists together hold exactly the input's values with their multiplicities |
| OutlierDetection.PartitionShrinks | backend/app/utils/custom_algorithms.py:32-47 | a pivot taken from the data lands in `middle`, so both recursive calls get strictly shorter lists and the sort terminates |
| OutlierDetection.ManualSort | backend/app/utils/custom_algorithms.py:27-47 | the result has the input's length; its order and contents are ManualSortCorrect |
| OutlierDetection.SortAround | backend/app/utils/custom_algorithms.py:32-47 | one recursive step (sort left, keep middle, sort right) keeps the input's length |
| OutlierDetection.ManualSortCorrect | backend/app/utils/custom_algorithms.py:27-47 | the result is sorted ascending and is a permutation of the input |
| OutlierDetection.SortedPermutationsEqual | backend/app/utils/custom_algorithms.py:27-47 | two sorted lists with the same values are equal, so a sorted permutation is the only possible result of the sort |
| OutlierDetection.ManualSortOfSorted | backend/app/utils/custom_algorithms.py:29-30 | an already sorted list, and in particular any list of length at most 1, comes back unchanged |
| OutlierDetection.ManualSortIdempotent | backend/app/utils/custom_algorithms.py:27-47 | sorting the sorted list changes nothing |
| OutlierDetection.SortedEnds | backend/app/utils/custom_algorithms.py:95-96 | the first and last element of the sorted data are the least and the greatest value of the data |
| OutlierDetection.PositionBounds | backend/app/utils/custom_algorithms.py:54-57 | for 0 <= p <= 100 the fractional index p/100*(n-1) lies in [0, n-1], so both neighbour indices are in range |
| OutlierDetection.Percentile | backend/app/utils/custom_algorithms.py:49-66 | 0.0 on an empty list; otherwise a value between the elements at floor(idx) and min(floor(idx)+1, n-1); p = 0 gives the first element and p = 100 the last |
| OutlierDetection.PercentileInRange | backend/app/utils/custom_algorithms.py:49-66 | on sorted data every percentile lies between the least and the greatest value |
| OutlierDetection.PercentileMonotone | backend/app/utils/custom_algorithms.py:49-66 | on sorted data a higher percentile is never smaller, so Q1 <= median <= Q3 |
| OutlierDetection.FenceOrder | backend/app/utils/custom_algorithms.py:77-79 | with q1 <= q3 and a non-negative multiplier, lower fence <= q1 and q3 <= upper fence |
| OutlierDetection.FencesEncloseQuartiles | backend/app/utils/custom_algorithms.py:73-79 | for non-empty data and a non-negative multiplier, lower <= Q1 <= median <= Q3 <= upper |
| OutlierDetection.CollectOutliers | backend/app/utils/custom_algorithms.py:81-84 | index i is reported exactly when i < len(data) and data[i] lies outside [lower, upper]; the indices strictly increase |
| OutlierDetection.OutlierDetector.constructor | backend/app/utils/custom_algorithms.py:19-25 | the multiplier is stored and the quartile, IQR and fence fields start as None |
| OutlierDetection.OutlierDetector.DetectOutliers | backend/app/utils/custom_algorithms.py:68-100 | empty data gives no indices and no statistics and leaves the fields as they were; otherwise the fields hold Q1, Q3, IQR and the fences of the sorted data, the indices are exactly those of the values outside the fences in increasing order, and the statistics hold the record and outlier counts, the percentage, min/max (first/last of the sorted data) and the median |
| MinHeap.Parent | backend/app/utils/custom_algorithms.py:112-113 | every index above 0 has a parent strictly below it; the root's parent is -1 |
| MinHeap.ChildrenOfParent | backend/app/utils/custom_algorithms.py:112-119 | parent inverts both child functions, and exactly the two children of i have parent i |
| MinHeap.Swapped | backend/app/utils/custom_algorithms.py:121-122 | exchanging two entries keeps the length and the multiset of entries and changes no other position |
| MinHeap.BubbleUpStep | backend/app/utils/custom_algorithms.py:126-130 | swapping an entry smaller than its parent moves the only heap-order defect to the parent's position |
| MinHeap.BubbleDownStep | backend/app/utils/custom_algorithms.py:138-150 | swapping an entry with its smallest, smaller child moves the only heap-order defect to that child |
| MinHeap.BubbleDownDone | backend/app/utils/custom_algorithms.py:148-152 | when no child is smaller, the list is a min-heap again |
| MinHeap.RootIsMin | backend/app/utils/custom_algorithms.py:171-174 | in a min-heap no entry has a smaller priority than the root |
| MinHeap.MoveLastToRoot | backend/app/utils/custom_algorithms.py:165-167 | moving the last entry to the root of a min-heap drops exactly the old root and leaves a defect only at the root |
| MinHeap.CustomMinHeap.constructor | backend/app/utils/custom_algorithms.py:109-110 | a new heap is empty and valid |
| MinHeap.CustomMinHeap.Size | backend/app/utils/custom_algorithms.py:176-177 | the number of entries held |
| MinHeap.CustomMinHeap.IsEmpty | backend/app/utils/custom_algorithms.py:179-180 | true exactly when the heap holds no entries |
| MinHeap.CustomMinHeap.Swap | backend/app/utils/custom_algorithms.py:121-122 | the heap list becomes the old list with the two positions exchanged |
| MinHeap.CustomMinHeap.BubbleUp | backend/app/utils/custom_algorithms.py:124-132 | from a heap whose only defect is at i, the loop restores the min-heap property without changing the entries |
| MinHeap.CustomMinHeap.BubbleDown | backend/app/utils/custom_algorithms.py:134-152 | from a heap whose only defect is below i, the loop restores the min-heap property without changing the entries |
| MinHeap.CustomMinHeap.Insert | backend/app/utils/custom_algorithms.py:154-156 | the heap stays a min-heap, grows by one and gains exactly the new (priority, data) entry |
| MinHeap.CustomMinHeap.ExtractMin | backend/app/utils/custom_algorithms.py:158-169 | IndexError "Heap is empty" on an empty heap, which stays empty; otherwise the old root, which no entry undercuts, is removed, and the heap shrinks by one and stays a min-heap |
| MinHeap.CustomMinHeap.Peek | backend/app/utils/custom_algorithms.py:171-174 | IndexError on an empty heap; otherwise the root, a minimum-priority entry, with the heap unchanged |
| TopTrips.Duration | backend/app/utils/custom_algorithms.py:191 | a missing or None duration counts as 0, any other is used as is |
| TopTrips.ReversedPermutes | backend/app/utils/custom_algorithms.py:204 | reversing the drained list keeps its entries |
| TopTrips.ReversedDescending | backend/app/utils/custom_algorithms.py:204 | reversing a list ascending by duration gives one that is longest first |
| TopTrips.EvictKeepsBelow | backend/app/utils/custom_algorithms.py:195-197 | evicting the least entry for a longer trip keeps every dropped entry no longer than every kept one |
| TopTrips.PassKeepsBelow | backend/app/utils/custom_algorithms.py:195 | passing over a trip no longer than the least kept entry keeps every dropped entry no longer than every kept one |
| TopTrips.Offer | backend/app/utils/custom_algorithms.py:190-197 | one loop step: push while the heap holds fewer than k entries, otherwise replace the root by a longer trip; nothing is lost, and what was dropped is never longer than what is kept; peeking into an empty heap (k < 1) raises IndexError |
| TopTrips.SelectLongest | backend/app/utils/custom_algorithms.py:188-197 | after the pass the heap holds min(k, n) of the trips, every trip passed over or evicted is no longer than any kept, and k < 1 with trips raises IndexError |
| TopTrips.DrainAscending | backend/app/utils/custom_algorithms.py:199-202 | extracting until empty lists exactly the heap's entries, in ascending order of duration |
| TopTrips.LeftOutAreShorter | backend/app/utils/custom_algorithms.py:183-204 | the returned trips come from the input, and every trip left out is no longer than every trip returned |
| TopTrips.FindTopKTripsByDuration | backend/app/utils/custom_algorithms.py:183-204 | IndexError exactly when k < 1 and there are trips; otherwise min(k, n) input trips, longest first, none shorter than any trip left out |
| Text.NatToString | frontend/js/charts.js:95 | a non-empty digit string without a leading zero |
| Text.NatToStringRoundTrip | frontend/js/charts.js:95 | reading the rendered digits back gives the number |
| Text.NatToStringInjective | frontend/js/charts.js:95 | different numbers render differently |
| Text.PadStart2 | frontend/js/charts.js:95 | a string of two or more characters is kept; a shorter one is filled with leading '0's up to two characters |
| Text.PadStart2Value | frontend/js/charts.js:95 | zero-padding a digit string does not change the number it denotes |
| Hours.HourLabel | frontend/js/charts.js:95 | the label has five characters, ends in ":00", and its first two characters are digits denoting the hour |
| Hours.HourLabelInjective | frontend/js/charts.js:92-98 | different hours get different labels |
| Hours.SumCountsIsPresent | frontend/js/charts.js:82-98 | the 24 hourly counts add up to the number of trips that have a pickup hour |
| Hours.TallyHours | frontend/js/charts.js:80-88 | the map holds exactly the hours that occur, each with its number of trips |
| Charting.Cycle | frontend/js/charts.js:216-228 | one colour per entry, entry i taking palette[i mod palette length] |
| Charting.CyclePeriodic | frontend/js/charts.js:227 | entries a whole palette apart share a colour, and the first palette-length entries use the palette in order |
| MobilityApp.OptionalParamLookup | frontend/js/main.js:337-340 | a filter parameter is sent exactly when its value is non-empty, and then with that value |
| MobilityApp.PageOffset | frontend/js/main.js:333 | the offset (page - 1) * size is never negative for page >= 1 |
| MobilityApp.OffsetAdvance | frontend/js/main.js:331-334 | each page starts exactly where the previous one ended |
| MobilityApp.TripsEndpoint | frontend/js/main.js:331-348 | the trips request goes to /trips |
| MobilityApp.TripsEndpointParams | frontend/js/main.js:331-346 | limit and offset are always sent, each filter exactly when non-empty, and sort_by and sort_order together exactly when a sort field is set |
| MobilityApp.LocationsEndpoint | frontend/js/main.js:296-302 | the locations request carries the locations page size as limit and its page offset as offset |
| MobilityApp.NonEmpty | frontend/js/main.js:242-243 | a value is sent exactly when it is non-empty |
| MobilityApp.ApiCallOnlyAdds | frontend/js/main.js:1175-1201 | apiCall keeps every cached entry, adds nothing but the requested endpoint, adds it exactly when the call succeeds, and leaves the cache unchanged on an error |
| MobilityApp.ApiCallMemoises | frontend/js/main.js:1175-1201 | after a successful call, the next call for the same endpoint returns the same value whatever fetch would do, and changes nothing |
| MobilityApp.RememberedLookup | frontend/js/main.js:277-279 | after the forEach an id is in the map exactly when it was before or is listed; a listed id maps to its last row's name or to the id; an unlisted id keeps its entry |
| MobilityApp.VendorName | frontend/js/main.js:289-291 | the remembered name when there is a non-empty one, otherwise the id itself |
| MobilityApp.VendorNameAfterLoad | frontend/js/main.js:277-291 | after loadVendors, a listed vendor's display name is its last row's name, or its id when that row has none |
| MobilityApp.NamedVendors | frontend/js/charts.js:68-71 | one row per vendor, identical but for vendor_name, which becomes the vendor's display name |
| MobilityApp.UrbanMobilityApp.constructor | frontend/js/main.js:2-21 | page 1 of 10 trips, locations page 1 of 12, no sort field, 'desc', empty filters, empty cache and vendor map |
| MobilityApp.ApiCallIndependent | frontend/js/main.js:1175-1201 | a call for one endpoint leaves the answer for every other endpoint as it was, so requests to different endpoints may run in any order |
| MobilityApp.UrbanMobilityApp.GetVendorName | frontend/js/main.js:289-291 | the display name VendorName gives for the instance's vendor map: the remembered name when non-empty, otherwise the id |
| MobilityApp.UrbanMobilityApp.ApiCall | frontend/js/main.js:1175-1201 | answers what ApiResult says, fetches exactly on a cache miss, and changes only the cache, as CacheAfter says |
| MobilityApp.UrbanMobilityApp.LoadTrips | frontend/js/main.js:319-349 | requests the /trips endpoint of the current state; only the cache changes |
| MobilityApp.UrbanMobilityApp.LoadLocations | frontend/js/main.js:293-303 | requests the /locations endpoint of the current state; only the cache changes |
| MobilityApp.UrbanMobilityApp.ChartRequests | frontend/js/charts.js:318-321 | the trip-volume and top-vendors requests of updateCharts under the current date filters reach the cache as ChartsCache says; nothing else changes |
| MobilityApp.UrbanMobilityApp.LoadDashboardMetrics | frontend/js/main.js:238-268 | requests the overview and the trip summary under the date filters; the chart requests follow exactly when both succeed and neither is JSON null, since reading a field of null throws before updateCharts; as MetricsCache says; only the cache changes |
| MobilityApp.UrbanMobilityApp.AdvancedChartRequests | frontend/js/advanced-charts.js:384-396 | all three advanced-chart requests are made, whatever each answers, as AdvancedCache says; only the cache changes |
| MobilityApp.UrbanMobilityApp.LoadAnalytics | frontend/js/main.js:556-620 | the summary request, whose failure ends it; then, only when the summary is truthy and the page shows a peak hour, the 1000-trip request under the dates, whose failure ends it too; then the advanced-chart requests; as AnalyticsCache says; only the cache changes |
| MobilityApp.FalsySummarySkipsPeakHour | frontend/js/main.js:568-615 | a summary that resolves to a falsy value (null, false, 0, '') skips the peak-hour request and goes straight to the advanced-chart requests |
| MobilityApp.UrbanMobilityApp.LoadInitialData | frontend/js/main.js:222-236 | the dashboard metrics, the vendors, the locations page and the trips page in turn, as InitialDataLoaded says |
| MobilityApp.UrbanMobilityApp.RememberVendors | frontend/js/main.js:277-279 | only the vendor map changes, to the map RememberedLookup describes |
| MobilityApp.UrbanMobilityApp.LoadVendors | frontend/js/main.js:271-287 | on a vendor-list answer the list is remembered in the vendor map; otherwise only the cache may change (VendorsLoaded) |
| MobilityApp.UrbanMobilityApp.OnSearchInput | frontend/js/main.js:62-65 | stores the search text; nothing else changes until the debounce timer fires |
| MobilityApp.UrbanMobilityApp.OnSearchDebounceElapsed | frontend/js/main.js:1041-1043 | back to page 1, then the trips of that state are requested |
| MobilityApp.UrbanMobilityApp.OnVendorFilterChange | frontend/js/main.js:70-75 | stores the vendor filter, back to page 1, reloads the trips |
| MobilityApp.UrbanMobilityApp.OnLocationFilterChange | frontend/js/main.js:80-83 | stores the location filter and keeps the page; the trips request is the same as before, since loadTrips never sends the location |
| MobilityApp.UrbanMobilityApp.OnSortFieldChange | frontend/js/main.js:89-94 | stores the sort field, back to page 1, reloads the trips |
| MobilityApp.UrbanMobilityApp.OnSortDirectionChange | frontend/js/main.js:99-103 | stores the direction, back to page 1, reloads the trips |
| MobilityApp.UrbanMobilityApp.OnDashboardStartDateChange | frontend/js/main.js:116-124 | stores the start date, empties the cache, reloads the dashboard metrics and then updates the charts, leaving the cache DashboardRefetched describes; the page is kept |
| MobilityApp.UrbanMobilityApp.OnDashboardEndDateChange | frontend/js/main.js:128-136 | stores the end date, empties the cache, reloads the dashboard metrics and then updates the charts, leaving the cache DashboardRefetched describes; the page is kept |
| MobilityApp.UrbanMobilityApp.OnTripsStartDateChange | frontend/js/main.js:141-146 | stores the start date, back to page 1, reloads the trips; the cache is kept |
| MobilityApp.UrbanMobilityApp.OnTripsEndDateChange | frontend/js/main.js:151-156 | stores the end date, back to page 1, reloads the trips; the cache is kept |
| MobilityApp.UrbanMobilityApp.OnItemsPerPageChange | frontend/js/main.js:175-179 | stores the page size, back to page 1, reloads the trips |
| MobilityApp.UrbanMobilityApp.OnLocationsItemsPerPageChange | frontend/js/main.js:184-188 | stores the locations page size, back to locations page 1, reloads the locations |
| MobilityApp.UrbanMobilityApp.HandleSort | frontend/js/main.js:971-987 | the same field flips the direction, a new field becomes the sort field and sorts ascending; the page is kept and the trips are reloaded |
| MobilityApp.UrbanMobilityApp.ChangePage | frontend/js/main.js:989-995 | a step that would go below page 1 changes nothing; otherwise the page moves by the step and the trips are reloaded; the page stays >= 1 |
| MobilityApp.UrbanMobilityApp.ChangeLocationsPage | frontend/js/main.js:1012-1018 | the same rule for the locations page and the locations request |
| MobilityApp.UrbanMobilityApp.ClearAllFilters | frontend/js/main.js:1073-1120 | all five filters empty, no sort field, 'desc', page 1, then the trips are reloaded; cache, page sizes and locations page are untouched |
| MobilityApp.UrbanMobilityApp.RefreshData | frontend/js/main.js:1146-1166 | empties the cache, loads the initial data, reloads the analytics section (with its truthy-summary and peak-hour gates) or the dashboard metrics, updates the charts and, on the analytics section, the advanced charts, reaching the state Refreshed describes |
| MobilityApp.ChartsCacheKeys | frontend/js/charts.js:318-321 | updateCharts keeps every cached entry and adds only its two requests, each one whenever its fetch succeeds |
| MobilityApp.MetricsCacheKeys | frontend/js/main.js:238-268 | loadDashboardMetrics keeps every cached entry and adds only dashboard requests under the filters; a succeeding overview or summary fetch is cached |
| MobilityApp.AdvancedCacheKeys | frontend/js/advanced-charts.js:384-396 | initializeAllCharts keeps every cached entry and adds only its three requests |
| MobilityApp.AnalyticsCacheKeys | frontend/js/main.js:556-620 | loadAnalytics keeps every cached entry and adds only the summary, the 1000-trip request under the dates and the advanced-chart requests |
| MobilityApp.DashboardCacheFresh | frontend/js/main.js:116-136 | after a dashboard date change the cache holds only the four dashboard requests under the new dates, so nothing fetched under the old dates survives; when all four fetches succeed it holds all four |
| MobilityApp.InitialDataRefetches | frontend/js/main.js:222-236 | from an emptied cache, loadInitialData changes only the cache and the vendor map, caches only its own requests, and takes the vendor map from a fresh /vendors answer |
| MobilityApp.RefreshRefetches | frontend/js/main.js:1146-1166 | refreshData keeps filters, sort, pages and section, caches only the requests a refresh makes, rebuilds the vendor map from a fresh /vendors answer, and caches /vendors when that fetch succeeds |
| MobilityApp.NextDirection | frontend/js/main.js:971-977 | a new field gives 'asc'; the same field turns 'asc' into 'desc' and anything else into 'asc' |
| MobilityApp.SortTwiceFromAscending | frontend/js/main.js:971-977 | clicking the same column twice from an ascending sort returns to ascending |
| MobilityApp.ClearedTripsEndpoint | frontend/js/main.js:1073-1120 | after clearAllFilters the trips request carries only limit and offset 0 |
| MobilityApp.TruncatedRemainder | frontend/js/main.js:1301 | JavaScript's % takes the dividend's sign: in [0, 60) for non-negative minutes, in (-60, 0] for negative ones |
| MobilityApp.FormatDuration | frontend/js/main.js:1298-1303 | the text is '-' exactly for a missing or zero value |
| MobilityApp.FormatDurationSplitsMinutes | frontend/js/main.js:1298-1303 | for m > 0 the shown hours and minutes split floor(m) as 60*h + mins with mins < 60, and the hours appear exactly when m >= 60 |
| MobilityApp.PeakHour | frontend/js/main.js:593-605 | no peak exactly when no trip has an hour; otherwise an hour that occurs, whose count no hour exceeds and every later hour falls short of (ties go to the later hour) |
| MobilityApp.PeakHourLabel | frontend/js/main.js:606 | no text without a peak; otherwise five characters whose first two digits denote the peak hour |
| Visualizer.AggregateTripsByHour | frontend/js/charts.js:79-101 | exactly 24 buckets; bucket h has hour h, the label "hh:00" and the number of trips picked up in hour h |
| Visualizer.HourlyTotal | frontend/js/charts.js:82-98 | the bucket counts add up to the number of trips with a pickup hour, so never to more than the number of trips |
| Visualizer.BucketsChart | frontend/js/charts.js:112-113 | the chart's labels are "00:00" to "23:00" and its values the hourly trip counts |
| Visualizer.YTick | frontend/js/charts.js:184-189 | values of 1000 and more become thousands (at least 1) with a 'K', smaller ones stay as they are; either way the tick stands for the value |
| Visualizer.VendorLabel | frontend/js/charts.js:211 | never empty; the vendor name when it is truthy |
| Visualizer.NamedVendorLabel | frontend/js/charts.js:66-72 | a bar named through the vendor map shows the remembered name, else the id, and 'Unknown' only for an empty id |
| Visualizer.VendorBars | frontend/js/charts.js:211-238 | one bar per vendor with its label, its trip count and revenue (0 when missing) and border colour i = colors[i mod 8] |
| Visualizer.DataVisualizer.constructor | frontend/js/charts.js:4-5 | both chart slots start empty |
| Visualizer.DataVisualizer.RenderTripVolumeChart | frontend/js/charts.js:103-115 | without the canvas nothing changes; otherwise the old chart in the slot is destroyed and a fresh line chart of the buckets fills it; the other slot is untouched |
| Visualizer.DataVisualizer.RenderVendorPerformanceChart | frontend/js/charts.js:202-230 | without the canvas nothing changes; otherwise the old chart in the slot is destroyed and a fresh bar chart of the vendors fills it; the other slot is untouched |
| Visualizer.DataVisualizer.LoadTripVolumeData | frontend/js/charts.js:28-50 | requests up to 1000 trips under the date filters and draws their hourly volume only for a non-empty trip list |
| Visualizer.DataVisualizer.LoadVendorPerformanceData | frontend/js/charts.js:52-77 | requests the top eight vendors under the date filters and draws them, named through the vendor map, only for a non-empty list |
| Visualizer.DataVisualizer.UpdateCharts | frontend/js/charts.js:318-321 | reloads the trip volume and then the vendor performance; the app's cache becomes what ChartsCache says, as ChartRequests leaves it; the trip-volume slot holds a fresh line chart of the hourly counts exactly when a non-empty trip list arrives and its canvas exists, the vendor slot a fresh bar chart of the named vendors exactly when a non-empty vendor list arrives and its canvas exists, the replaced chart destroyed; otherwise a slot and its chart are untouched; requires that the two slots never hold the same chart, and keeps it |
| AdvancedVisualizer.ScatterData | frontend/js/advanced-charts.js:50-57 | never more points than trips |
| AdvancedVisualizer.ScatterDataAppend | frontend/js/advanced-charts.js:50-57 | the series of two trip lists joined is the two series joined: the filter keeps trip order and judges each trip alone |
| AdvancedVisualizer.ScatterDataMembers | frontend/js/advanced-charts.js:50-57 | a point is in the series exactly when some trip with truthy miles and fare maps to it as (miles, fare) |
| AdvancedVisualizer.EffectiveBorough | frontend/js/advanced-charts.js:146 | never empty: a falsy borough becomes 'Unknown' |
| AdvancedVisualizer.FirstSeen | frontend/js/advanced-charts.js:145-148 | the distinct borough names, each once |
| AdvancedVisualizer.InsertByValueAscending | frontend/js/advanced-charts.js:151 | inserting an array-index key keeps the index keys in ascending numeric order |
| AdvancedVisualizer.InsertByValuePermutes | frontend/js/advanced-charts.js:151 | inserting an array-index key adds exactly that key |
| AdvancedVisualizer.ObjectKeys | frontend/js/advanced-charts.js:151 | every array-index key comes before every other key, and the array-index keys ascend by numeric value |
| AdvancedVisualizer.ObjectKeysPermutes | frontend/js/advanced-charts.js:151 | Object.keys lists each inserted key exactly once |
| AdvancedVisualizer.ObjectKeysOfNames | frontend/js/advanced-charts.js:151 | with no array-index key, Object.keys is the insertion order |
| AdvancedVisualizer.BoroughLabels | frontend/js/advanced-charts.js:142-153 | labels and data have equal length, and the labels are the distinct effective boroughs, each once |
| AdvancedVisualizer.BoroughCountsPositive | frontend/js/advanced-charts.js:145-153 | data[i] is the number of locations whose effective borough is labels[i], and it is at least 1 |
| AdvancedVisualizer.BoroughTotal | frontend/js/advanced-charts.js:145-153 | the counts add up to the number of locations |
| AdvancedVisualizer.BoroughFirstSeenOrder | frontend/js/advanced-charts.js:145-151 | when no borough name looks like an array index, the labels come in first-seen order |
| AdvancedVisualizer.TallyNamesCorrect | frontend/js/advanced-charts.js:145-148 | the forEach tally maps each name seen to its number of occurrences, and its keys were inserted in first-seen order |
| AdvancedVisualizer.TallyReadBack | frontend/js/advanced-charts.js:150-153 | a complete tally read back in Object.keys order gives the labels and counts BoroughLabels and BoroughTotal describe |
| AdvancedVisualizer.AggregateByBorough | frontend/js/advanced-charts.js:142-154 | the loop's result is the borough tally whose properties BoroughLabels, BoroughCountsPositive, BoroughTotal and BoroughFirstSeenOrder state |
| AdvancedVisualizer.BoroughDoughnut | frontend/js/advanced-charts.js:164-171 | the doughnut keeps the labels and counts, and border colour i is chartPalette[i mod 8] |
| AdvancedVisualizer.RevenueSeries | frontend/js/advanced-charts.js:261-263 | labels, revenues and average fares each have one entry per vendor: name or else id, and 0 for a missing revenue or fare |
| AdvancedVisualizer.AdvancedDataVisualizer.constructor | frontend/js/advanced-charts.js:5-6 | the registry starts empty |
| AdvancedVisualizer.AdvancedDataVisualizer.Replace | frontend/js/advanced-charts.js:156-164 | without the canvas nothing changes; otherwise the chart registered under the id, if any, is destroyed and a fresh chart takes its place, the other entries staying |
| AdvancedVisualizer.AdvancedDataVisualizer.CreateScatterChart | frontend/js/advanced-charts.js:59-67 | the registry discipline of Replace, with a scatter chart of the points |
| AdvancedVisualizer.AdvancedDataVisualizer.CreateDoughnutChart | frontend/js/advanced-charts.js:156-171 | the registry discipline of Replace, with the doughnut of the tally |
| AdvancedVisualizer.AdvancedDataVisualizer.CreateRevenueChart | frontend/js/advanced-charts.js:250-265 | the registry discipline of Replace, with the revenue series of the vendors |
| AdvancedVisualizer.Place | frontend/js/advanced-charts.js:59-67 | a drawn chart is registered under its canvas, nothing drawn leaves the registry as it was, and every other entry is kept |
| AdvancedVisualizer.AdvancedDataVisualizer.RenderDistanceFareScatter | frontend/js/advanced-charts.js:40-48 | requests up to 1000 trips; a trip list with the canvas present is plotted as a fresh, live scatter chart of its series (ScatterDrawn) that replaces and destroys the canvas's old chart; anything else draws nothing and leaves the old chart untouched |
| AdvancedVisualizer.AdvancedDataVisualizer.RenderBoroughDistribution | frontend/js/advanced-charts.js:132-140 | requests up to 300 locations; a location list with the canvas present is tallied and drawn as a fresh, live doughnut (BoroughDrawn) that replaces and destroys the old chart; anything else draws nothing and leaves the old chart untouched |
| AdvancedVisualizer.AdvancedDataVisualizer.RenderRevenueAnalysis | frontend/js/advanced-charts.js:227-248 | requests the top ten vendors; a non-empty vendor list with the canvas present is drawn, named through the vendor map, as a fresh, live chart (RevenueDrawn) that replaces and destroys the old chart; an empty or missing list draws nothing and leaves the old chart untouched |
| AdvancedVisualizer.AdvancedDataVisualizer.InitializeAllCharts | frontend/js/advanced-charts.js:384-396 | all three renderers run; the app's cache becomes what AdvancedCache says; each canvas gets the fresh chart its renderer draws from the answer to its own request against the cache as it was on entry (ScatterDrawn, BoroughDrawn, RevenueDrawn); the registry is the old one with exactly those charts placed, so no other entry changes |
| AdvancedVisualizer.AdvancedDataVisualizer.DestroyAllCharts | frontend/js/advanced-charts.js:401-408 | every registered chart is destroyed and the registry is left empty |
| EtlLoad.Strip | backend/etl/load.py:61 | the result has no whitespace at either end |
| EtlLoad.StripSlice | backend/etl/load.py:61 | the result is one contiguous slice of the input with nothing but whitespace outside it |
| EtlLoad.StripUnchanged | backend/etl/load.py:61 | a string without whitespace at its ends is its own strip |
| EtlLoad.StripIdempotent | backend/etl/load.py:61 | stripping twice is stripping once |
| EtlLoad.StripPadded | backend/etl/load.py:61 | whitespace around a trimmed string is exactly what strip removes |
| EtlLoad.NormalizeVendorId | backend/etl/load.py:58-66 | None exactly for a missing cell or one that strips to nothing; otherwise the stripped text, which the result plus ".0" gives back when it ended in ".0" |
| EtlLoad.NormalizePadded | backend/etl/load.py:58-66 | a padded id without ".0" normalises to itself; with one trailing ".0" it loses exactly that suffix ("2.0" gives "2") |
| EtlLoad.NormalizeNotIdempotent | backend/etl/load.py:64-66 | only one ".0" goes per call: id + ".0.0" gives id + ".0", and normalising again gives id |
| EtlLoad.NormalizeDotZero | backend/etl/load.py:62-66 | a cell that strips to ".0" normalises to the empty string, not to None |
| EtlLoad.NormalizedStripsNonEmpty | backend/etl/load.py:61-66 | a non-empty normalised id starts with a non-space and so strips to a non-empty id |
| EtlLoad.NormalizeKeepsInnerSpace | backend/etl/load.py:61-66 | whitespace before a trailing ".0" survives: id + spaces + ".0" gives id + spaces, which a second strip would still shorten |
| EtlLoad.SafeDecimal | backend/etl/load.py:38-49 | the exact value exactly when the cell is a finite number within the cap (if any); None for missing, unparsable, non-finite or too large values |
| EtlLoad.SafeDecimalCapMonotone | backend/etl/load.py:47-49 | a value that passes a cap passes any larger cap unchanged |
| EtlLoad.ToRecord | backend/etl/load.py:107-131 | vendor and location ids are copied; every measurement kept is within its cap (9999.99 miles, 999.99 hours and mph, 999999.99 money), and miles and fare are kept exactly when they are numbers within the cap |
| EtlLoad.NormalizedFrame | backend/etl/load.py:196 | one row per input row, with the vendor id normalised |
| EtlLoad.KeepRows | backend/etl/load.py:196-198 | never more rows than the input, and every row kept has a non-empty vendor id and both location ids |
| EtlLoad.KeepRowsMembers | backend/etl/load.py:196-198 | a row survives the filters exactly when it is in the frame and passes them |
| EtlLoad.InsertIdAscending | backend/etl/load.py:89 | adding an id to a strictly ascending id list keeps it strictly ascending |
| EtlLoad.SortDistinct | backend/etl/load.py:89 | the ids of the result are exactly the ids of the input |
| EtlLoad.SortDistinctAscending | backend/etl/load.py:89 | the ids come in strictly ascending str order, so each appears once |
| EtlLoad.PresentIds | backend/etl/load.py:88-89 | no id collected is empty |
| EtlLoad.PresentIdsMembers | backend/etl/load.py:88-89 | an id is collected exactly when it is non-empty and some non-missing cell strips to it |
| EtlLoad.VendorNameOf | backend/etl/load.py:18-27 | a name exactly for the eight ids of VENDOR_NAME_MAP, and then that name |
| EtlLoad.LoadVendors | backend/etl/load.py:87-96 | one record per sorted distinct id, named from VENDOR_NAME_MAP or None |
| EtlLoad.LoadVendorsAscending | backend/etl/load.py:89-96 | the records come in strictly ascending id order, so no id has two records |
| EtlLoad.LoadVendorsMembers | backend/etl/load.py:87-96 | an id has a record exactly when it is non-empty and some non-missing vendor cell strips to it |
| EtlLoad.KeptTripsHaveVendors | backend/etl/load.py:196-207 | every trip load_data keeps has a vendor record for its (stripped) vendor id |
| EtlLoad.FlattenSnoc | backend/etl/load.py:134-137 | writing one more batch appends its records to what was written |
| EtlLoad.FlushSize | backend/etl/load.py:133 | the batch is flushed at batch_size rows when batch_size >= 1, and after every row otherwise |
| EtlLoad.LoadTrips | backend/etl/load.py:102-144 | the batches, written in order, are the records of all rows in order; all but the last hold exactly the flush size, the last between 1 and the flush size; there are no batches exactly when there are no rows; the total is the number of rows |

## Behaviour worth knowing

- **The response cache is emptied only by the two dashboard date inputs and by `refreshData`** (frontend/js/main.js:118, 130, 1147). The comment at main.js:118 and 130 gives the intent as "Clear cache when filters change".
  - `clearAllFilters`, the trips-page filters, the sort handlers and the page handlers keep the cache (frontend/js/main.js:70-188, 971-1018, 1073-1120).
  - A request made after those handlers can therefore be answered from the cache.
  - `DashboardCacheFresh` shows what the date inputs achieve: no answer fetched under the old dates survives.
- **Not every filter change returns to page 1.** The location filter keeps the page (frontend/js/main.js:80-83), and so do the dashboard date inputs (frontend/js/main.js:116-136).
- **The location filter is stored but never sent.** `loadTrips` builds its parameters without it (frontend/js/main.js:331-346), so that filter's reload asks for the same endpoint as before.
- **The borough labels are not always in first-seen order.** They follow JavaScript's `Object.keys` (frontend/js/advanced-charts.js:142-154). A borough name that is a canonical array index, such as "7", comes first, in ascending numeric order.

## Left out

- Network, DOM and library calls: `fetch` is a parameter (`FetchOutcome`), a canvas's existence is a boolean parameter, and Chart.js options other than the data series and border colours are not modelled.
- Concurrency and timers: the `Promise.all` fan-outs and the late-response race are not modelled. The `setTimeout` of `debounceSearch` is split into `OnSearchInput` and `OnSearchDebounceElapsed`, and the `waitForApp` polling is not modelled.
- Request URLs are kept structurally, as path plus ordered parameters. The encoding of the URL string is not modelled. Two requests share a cache entry exactly when path and parameters agree.
- Numbers are exact reals and integers. The model does not cover IEEE rounding, `parseFloat`, `toFixed`, `toLocaleString`, `Intl.NumberFormat`, or the doughnut and tooltip percentages.
- `Date` parsing and `getHours` are replaced by a given `Option<Hour>`. None stands only for a missing or empty `pickup_datetime`. A present date that does not parse gives `getHours()` = NaN, and that case is not modelled. `aggregateTripsByHour` drops such a trip (frontend/js/charts.js:82-100), but the peak-hour tally of `loadAnalytics` counts it under the key "NaN", which can then show as "NaN:00" (frontend/js/main.js:596-606).
- The DOM side of the dashboard is not modelled: `initializeCharts`, `loadInsights`, `switchSection`, `updateMetric`, the table and grid templates, toasts, the theme toggle and scroll effects.
- `loadAnalytics` and `loadDashboardMetrics` are modelled by their requests. The metric texts they display are not modelled, and the model takes it that writing them never throws. The peak-hour reduction of `loadAnalytics` is modelled separately, as `PeakHour`.
- `loadVendorTrips` and `loadLocationTrips` are not modelled; they combine `switchSection` with the filter updates that the handlers model.
- The requests of one load are made one after another, in program order. The source starts them together (`Promise.all`) and does not await the `updateCharts` of the date inputs. So when the same endpoint is asked for twice in one load, the model answers the second request from the cache whenever the first one succeeded.
- MobilityApp.UrbanMobilityApp.ChartRequests, LoadAnalytics, AdvancedChartRequests, OnDashboardStartDateChange, OnDashboardEndDateChange and RefreshData model the chart loads they trigger by those loads' effect on the app's cache only. The charts those loads draw are modelled by `DataVisualizer.UpdateCharts` and `AdvancedDataVisualizer.InitializeAllCharts`, which make the same requests and state the charts drawn, but the app methods do not call them.
- MobilityApp.UrbanMobilityApp.LoadAnalytics: a peak-hour answer that is truthy but not an array, such as a non-empty JSON string or an object with a positive `length`, makes `trips.forEach` throw (frontend/js/main.js:594-596). The source then skips the advanced charts. The model treats any answer other than a trip list as drawing no peak hour and goes on to the advanced-chart requests.
- AdvancedVisualizer.AdvancedDataVisualizer.InitializeAllCharts: states which chart each canvas holds and that it is fresh. It does not restate that the chart it replaced is destroyed and the new one live, or that an undrawn canvas's chart is untouched; the three renderers' own contracts state those for their canvas.
- MobilityApp.UrbanMobilityApp.RefreshData: the spin animation and the toasts are not modelled. Whether the analytics page shows a peak hour is a parameter.
- The advanced renderers other than the scatter, borough and revenue charts are not modelled. They only configure Chart.js.
- Object keys that collide with `Object.prototype` names (such as "__proto__") are not modelled.
- OutlierDetection.Percentile: requires 0 <= percentile <= 100. The source's callers use 25, 50 and 75. Python's negative indexing outside that range is not modelled.
- OutlierDetection.OutlierDetector.DetectOutliers: the statistics dictionary is a datatype, and the empty-data result `{}` is None.
- TopTrips.FindTopKTripsByDuration: trips are reduced to an id and a duration. The other dictionary fields travel along unchanged in the source and are not modelled.
- EtlLoad.LoadTrips: requires both location ids of every row. `int()` of a missing id raises in the source, and `load_data` drops such rows first.
- EtlLoad.ToRecord: the datetime columns (`_safe_datetime`) are not modelled. `trip_duration` is taken as already rounded by `load_data`.
- EtlLoad: the database session, `bulk_save_objects`, `commit`, CSV reading, argparse, `reset_tables`, `load_locations` and the printed counts are left out.
- EtlLoad.SafeDecimal: `Decimal(str(value))` is a cell already classified as missing, unparsable, non-finite or a number. Decimal parsing itself is not modelled.
