/**
 * IQR outlier detection over fares (backend/app/utils/custom_algorithms.py,
 * class OutlierDetector). Fares are exact reals; Python floats are not modelled.
 */
module OutlierDetection {
  import opened Wrappers

  ghost predicate Sorted(s: seq<real>) {
    forall i, j :: 0 <= i < j < |s| ==> s[i] <= s[j]
  }

  /** The three lists one pass of manual_sort's loop builds around the pivot. */
  datatype Parts = Parts(left: seq<real>, middle: seq<real>, right: seq<real>)

  /**
   * The partition loop of manual_sort: every value goes, in its original
   * order, to one of the three lists (PartitionPermutes: to exactly one).
   */
  function Partition(data: seq<real>, pivot: real): (p: Parts)
    ensures forall x | x in p.left :: x < pivot
    ensures forall x | x in p.middle :: x == pivot
    ensures forall x | x in p.right :: x > pivot
    ensures |p.left| + |p.middle| + |p.right| == |data|
  {
    if data == [] then Parts([], [], [])
    else
      var rest := Partition(data[1..], pivot);
      var v := data[0];
      if v < pivot then Parts([v] + rest.left, rest.middle, rest.right)
      else if v > pivot then Parts(rest.left, rest.middle, [v] + rest.right)
      else Parts(rest.left, [v] + rest.middle, rest.right)
  }

  /** Together the three lists hold exactly the values of the input. */
  lemma {:induction false} PartitionPermutes(data: seq<real>, pivot: real)
    ensures var p := Partition(data, pivot);
      multiset(p.left) + multiset(p.middle) + multiset(p.right) == multiset(data)
  {
    if data != [] {
      var v, tail := data[0], data[1..];
      var rest := Partition(tail, pivot);
      PartitionPermutes(tail, pivot);
      assert data == [v] + tail;
      var p := Partition(data, pivot);
      if v < pivot {
        assert p == Parts([v] + rest.left, rest.middle, rest.right);
        ConsPermutes(v, rest.left, rest.middle, rest.right, tail);
      } else if v > pivot {
        assert p == Parts(rest.left, rest.middle, [v] + rest.right);
        ConsPermutes(v, rest.right, rest.left, rest.middle, tail);
      } else {
        assert p == Parts(rest.left, [v] + rest.middle, rest.right);
        ConsPermutes(v, rest.middle, rest.left, rest.right, tail);
      }
    }
  }

  lemma ConsPermutes(v: real, a: seq<real>, b: seq<real>, c: seq<real>, d: seq<real>)
    requires multiset(a) + multiset(b) + multiset(c) == multiset(d)
    ensures multiset([v] + a) + multiset(b) + multiset(c) == multiset([v] + d)
  {
    assert multiset([v] + a) == multiset{v} + multiset(a);
    assert multiset([v] + d) == multiset{v} + multiset(d);
  }

  /** The pivot lands in `middle`, so both recursive calls of manual_sort get shorter lists. */
  lemma PartitionShrinks(data: seq<real>, pivot: real)
    requires pivot in data
    ensures |Partition(data, pivot).left| < |data|
    ensures |Partition(data, pivot).right| < |data|
  {
    var p := Partition(data, pivot);
    PartitionPermutes(data, pivot);
    assert pivot in multiset(data);
    assert pivot !in p.left && pivot !in p.right;
    assert pivot in multiset(p.middle);
  }

  ghost predicate AllBelow(s: seq<real>, pivot: real) {
    forall x | x in s :: x < pivot
  }

  ghost predicate AllAbove(s: seq<real>, pivot: real) {
    forall x | x in s :: x > pivot
  }

  lemma PermutedBelow(a: seq<real>, b: seq<real>, pivot: real)
    requires multiset(a) == multiset(b) && AllBelow(b, pivot)
    ensures AllBelow(a, pivot)
  {
    forall x | x in a ensures x < pivot {
      assert x in multiset(a);
      assert x in multiset(b);
      assert x in b;
    }
  }

  lemma PermutedAbove(a: seq<real>, b: seq<real>, pivot: real)
    requires multiset(a) == multiset(b) && AllAbove(b, pivot)
    ensures AllAbove(a, pivot)
  {
    forall x | x in a ensures x > pivot {
      assert x in multiset(a);
      assert x in multiset(b);
      assert x in b;
    }
  }

  lemma SortedAroundPivot(a: seq<real>, m: seq<real>, b: seq<real>, pivot: real)
    requires Sorted(a) && Sorted(b)
    requires AllBelow(a, pivot) && AllAbove(b, pivot)
    requires forall x | x in m :: x == pivot
    ensures Sorted(a + m + b)
  {
    var s := a + m + b;
    forall i, j | 0 <= i < j < |s| ensures s[i] <= s[j] {
      if i < |a| {
        assert s[i] in a;
        if j >= |a| + |m| { assert s[j] in b; } else if j >= |a| { assert s[j] in m; }
      } else if i < |a| + |m| {
        assert s[i] in m;
        if j >= |a| + |m| { assert s[j] in b; } else { assert s[j] in m; }
      }
    }
  }

  /**
   * manual_sort: recursive three-way QuickSort around the middle element.
   * Its correctness is ManualSortCorrect.
   */
  function ManualSort(data: seq<real>): (r: seq<real>)
    ensures |r| == |data|
    decreases |data|, 1
  {
    if |data| <= 1 then data else SortAround(data, data[|data| / 2])
  }

  /** One recursive step of manual_sort: sort both sides of the partition around `pivot`. */
  function SortAround(data: seq<real>, pivot: real): (r: seq<real>)
    requires pivot in data
    ensures |r| == |data|
    decreases |data|, 0
  {
    var p := Partition(data, pivot);
    PartitionShrinks(data, pivot);
    ManualSort(p.left) + p.middle + ManualSort(p.right)
  }

  /** manual_sort returns a sorted permutation of its input. */
  lemma {:induction false} ManualSortCorrect(data: seq<real>)
    ensures multiset(ManualSort(data)) == multiset(data)
    ensures Sorted(ManualSort(data))
    decreases |data|
  {
    if |data| > 1 {
      var pivot := data[|data| / 2];
      var p := Partition(data, pivot);
      PartitionShrinks(data, pivot);
      PartitionPermutes(data, pivot);
      ManualSortCorrect(p.left);
      ManualSortCorrect(p.right);
      var l, r := ManualSort(p.left), ManualSort(p.right);
      assert ManualSort(data) == SortAround(data, pivot) == l + p.middle + r;
      assert multiset(l + p.middle + r) == multiset(l) + multiset(p.middle) + multiset(r);
      PermutedBelow(l, p.left, pivot);
      PermutedAbove(r, p.right, pivot);
      SortedAroundPivot(l, p.middle, r, pivot);
    }
  }

  /** Two sorted lists holding the same values are equal: sorting has one possible result. */
  lemma {:induction false} SortedPermutationsEqual(a: seq<real>, b: seq<real>)
    requires Sorted(a) && Sorted(b) && multiset(a) == multiset(b)
    ensures a == b
    decreases |a|
  {
    assert |a| == |multiset(a)| == |multiset(b)| == |b|;
    if a != [] {
      HeadsEqual(a, b);
      TailsPermuted(a, b);
      SortedTail(a);
      SortedTail(b);
      SortedPermutationsEqual(a[1..], b[1..]);
      assert a == [a[0]] + a[1..] && b == [b[0]] + b[1..];
    }
  }

  lemma HeadsEqual(a: seq<real>, b: seq<real>)
    requires Sorted(a) && Sorted(b) && multiset(a) == multiset(b) && a != [] && b != []
    ensures a[0] == b[0]
  {
    assert a[0] in multiset(b);
    var j :| 0 <= j < |b| && b[j] == a[0];
    assert b[0] in multiset(a);
    var i :| 0 <= i < |a| && a[i] == b[0];
  }

  lemma TailsPermuted(a: seq<real>, b: seq<real>)
    requires multiset(a) == multiset(b) && a != [] && b != [] && a[0] == b[0]
    ensures multiset(a[1..]) == multiset(b[1..])
  {
    assert a == [a[0]] + a[1..];
    assert b == [b[0]] + b[1..];
    assert multiset(a) == multiset{a[0]} + multiset(a[1..]);
    assert multiset(b) == multiset{b[0]} + multiset(b[1..]);
    assert multiset(a[1..]) == multiset(a) - multiset{a[0]};
    assert multiset(b[1..]) == multiset(b) - multiset{b[0]};
  }

  lemma SortedTail(a: seq<real>)
    requires Sorted(a) && a != []
    ensures Sorted(a[1..])
  {
    var t := a[1..];
    forall i, j | 0 <= i < j < |t| ensures t[i] <= t[j] {
      assert t[i] == a[i + 1] && t[j] == a[j + 1];
    }
  }

  /** manual_sort leaves a sorted list (in particular any list of length <= 1) as it is. */
  lemma ManualSortOfSorted(data: seq<real>)
    requires Sorted(data)
    ensures ManualSort(data) == data
  {
    ManualSortCorrect(data);
    SortedPermutationsEqual(ManualSort(data), data);
  }

  /** Sorting twice is sorting once. */
  lemma ManualSortIdempotent(data: seq<real>)
    ensures ManualSort(ManualSort(data)) == ManualSort(data)
  {
    ManualSortCorrect(data);
    ManualSortOfSorted(ManualSort(data));
  }

  /** The first and last element of the sorted data are the least and the greatest value. */
  lemma SortedEnds(data: seq<real>)
    requires data != []
    ensures var s := ManualSort(data);
      |s| == |data| && s[0] in data && s[|s| - 1] in data &&
      forall x | x in data :: s[0] <= x <= s[|s| - 1]
  {
    var s := ManualSort(data);
    ManualSortCorrect(data);
    SameElements(data, s);
    SortedBounds(s);
    assert s[0] in s && s[|s| - 1] in s;
  }

  lemma SameElements(a: seq<real>, b: seq<real>)
    requires multiset(a) == multiset(b)
    ensures forall x :: x in a <==> x in b
  {
    forall x ensures x in a <==> x in b {
      assert x in a <==> x in multiset(a);
      assert x in b <==> x in multiset(b);
    }
  }

  /** In a sorted list every element lies between the first and the last. */
  lemma SortedBounds(s: seq<real>)
    requires Sorted(s) && s != []
    ensures forall x | x in s :: s[0] <= x <= s[|s| - 1]
  {
    forall x | x in s ensures s[0] <= x <= s[|s| - 1] {
      var k :| 0 <= k < |s| && s[k] == x;
    }
  }

  // ---------------------------------------------------------------- percentiles

  function Min(a: int, b: int): int { if a <= b then a else b }

  /** Fractional position of a percentile in a list of n values: p/100 * (n - 1). */
  function Position(n: nat, percentile: real): real {
    (percentile / 100.0) * ((n - 1) as real)
  }

  lemma PositionBounds(n: nat, percentile: real)
    requires n >= 1 && 0.0 <= percentile <= 100.0
    ensures 0.0 <= Position(n, percentile) <= (n - 1) as real
    ensures 0 <= Position(n, percentile).Floor <= n - 1
  {
    var f := percentile / 100.0;
    var m := (n - 1) as real;
    MulNonNegative(f, m);
    MulNonNegative(1.0 - f, m);
  }

  /** Index of the lower neighbour: Python's int() on a non-negative position. */
  function LowerIndex(n: nat, percentile: real): int {
    Position(n, percentile).Floor
  }

  function UpperIndex(n: nat, percentile: real): int {
    Min(LowerIndex(n, percentile) + 1, n - 1)
  }

  ghost predicate Between(r: real, a: real, b: real) {
    (a <= r <= b) || (b <= r <= a)
  }

  lemma MulNonNegative(x: real, y: real)
    requires x >= 0.0 && y >= 0.0
    ensures x * y >= 0.0
  {}

  lemma InterpolationUp(a: real, b: real, f: real)
    requires 0.0 <= f <= 1.0 && a <= b
    ensures a <= a + f * (b - a) <= b
  {
    MulNonNegative(f, b - a);
    MulNonNegative(1.0 - f, b - a);
  }

  lemma InterpolationDown(a: real, b: real, f: real)
    requires 0.0 <= f <= 1.0 && b <= a
    ensures b <= a + f * (b - a) <= a
  {
    MulNonNegative(f, a - b);
    MulNonNegative(1.0 - f, a - b);
  }

  lemma InterpolationMonotone(a: real, b: real, f1: real, f2: real)
    requires a <= b && f1 <= f2
    ensures a + f1 * (b - a) <= a + f2 * (b - a)
  {
    MulNonNegative(f2 - f1, b - a);
  }

  /** A point f of the way from a to b, 0 <= f <= 1, lies between a and b. */
  lemma Interpolation(a: real, b: real, f: real)
    requires 0.0 <= f <= 1.0
    ensures Between(a + f * (b - a), a, b)
  {
    if a <= b { InterpolationUp(a, b, f); } else { InterpolationDown(a, b, f); }
  }

  /**
   * calculate_percentile: linear interpolation between the two neighbours of
   * the fractional position; 0.0 on an empty list.
   */
  function Percentile(sorted: seq<real>, percentile: real): (r: real)
    requires 0.0 <= percentile <= 100.0
    ensures sorted == [] ==> r == 0.0
    ensures sorted != [] ==>
      0 <= LowerIndex(|sorted|, percentile) <= UpperIndex(|sorted|, percentile) < |sorted| &&
      Between(r, sorted[LowerIndex(|sorted|, percentile)], sorted[UpperIndex(|sorted|, percentile)])
    ensures sorted != [] && percentile == 0.0 ==> r == sorted[0]
    ensures sorted != [] && percentile == 100.0 ==> r == sorted[|sorted| - 1]
  {
    if sorted == [] then 0.0
    else
      var n := |sorted|;
      PositionBounds(n, percentile);
      var index := Position(n, percentile);
      var lowerIdx := index.Floor;
      var upperIdx := Min(lowerIdx + 1, n - 1);
      if lowerIdx == upperIdx then sorted[lowerIdx]
      else
        var fraction := index - lowerIdx as real;
        Interpolation(sorted[lowerIdx], sorted[upperIdx], fraction);
        sorted[lowerIdx] + fraction * (sorted[upperIdx] - sorted[lowerIdx])
  }

  /** On sorted data a percentile lies between the least and the greatest value. */
  lemma PercentileInRange(sorted: seq<real>, percentile: real)
    requires Sorted(sorted) && sorted != [] && 0.0 <= percentile <= 100.0
    ensures sorted[0] <= Percentile(sorted, percentile) <= sorted[|sorted| - 1]
  {
    var n := |sorted|;
    PositionBounds(n, percentile);
    var lo, hi := LowerIndex(n, percentile), UpperIndex(n, percentile);
    assert sorted[0] <= sorted[lo] <= sorted[hi] <= sorted[n - 1];
  }

  /** On sorted data a higher percentile is never smaller: in particular Q1 <= median <= Q3. */
  lemma PercentileMonotone(sorted: seq<real>, p1: real, p2: real)
    requires Sorted(sorted) && 0.0 <= p1 <= p2 <= 100.0
    ensures Percentile(sorted, p1) <= Percentile(sorted, p2)
  {
    if sorted != [] {
      var n := |sorted|;
      PositionBounds(n, p1);
      PositionBounds(n, p2);
      PositionMonotone(n, p1, p2);
      var lo1, lo2 := LowerIndex(n, p1), LowerIndex(n, p2);
      var hi1, hi2 := UpperIndex(n, p1), UpperIndex(n, p2);
      assert lo1 <= lo2;
      if lo1 < lo2 {
        // r1 is at most its upper neighbour, which is at most r2's lower neighbour.
        assert sorted[lo1] <= sorted[hi1] <= sorted[lo2] <= sorted[hi2];
      } else {
        SameCellMonotone(sorted, p1, p2);
      }
    }
  }

  lemma PositionMonotone(n: nat, p1: real, p2: real)
    requires n >= 1 && p1 <= p2
    ensures Position(n, p1) <= Position(n, p2)
    ensures LowerIndex(n, p1) <= LowerIndex(n, p2)
  {
    var m := (n - 1) as real;
    var d := (p2 - p1) / 100.0;
    MulNonNegative(d, m);
    assert Position(n, p2) - Position(n, p1) == d * m;
  }

  /** Two positions in the same cell [lo, lo + 1) interpolate between the same two neighbours. */
  lemma SameCellMonotone(sorted: seq<real>, p1: real, p2: real)
    requires Sorted(sorted) && sorted != [] && 0.0 <= p1 <= p2 <= 100.0
    requires LowerIndex(|sorted|, p1) == LowerIndex(|sorted|, p2)
    ensures Percentile(sorted, p1) <= Percentile(sorted, p2)
  {
    var n := |sorted|;
    PositionBounds(n, p1);
    PositionBounds(n, p2);
    PositionMonotone(n, p1, p2);
    var lo, hi := LowerIndex(n, p1), UpperIndex(n, p1);
    if lo != hi {
      var f1, f2 := Position(n, p1) - lo as real, Position(n, p2) - lo as real;
      var a, b := sorted[lo], sorted[hi];
      assert a <= b;
      assert Percentile(sorted, p1) == a + f1 * (b - a);
      assert Percentile(sorted, p2) == a + f2 * (b - a);
      InterpolationMonotone(a, b, f1, f2);
    }
  }

  // ---------------------------------------------------------------- detector

  ghost predicate IsOutlier(value: real, lower: real, upper: real) {
    value < lower || value > upper
  }

  /** The statistics dictionary detect_outliers returns for non-empty data. */
  datatype OutlierStats = OutlierStats(
    totalRecords: nat,
    outliersCount: nat,
    outlierPercentage: real,
    q1: real,
    q3: real,
    iqr: real,
    lowerBound: real,
    upperBound: real,
    minValue: real,
    maxValue: real,
    median: real)

  /** The fences: Q1 - m*IQR below and Q3 + m*IQR above. */
  function LowerFence(q1: real, iqr: real, multiplier: real): real { q1 - multiplier * iqr }
  function UpperFence(q3: real, iqr: real, multiplier: real): real { q3 + multiplier * iqr }

  lemma FenceOrder(q1: real, q3: real, multiplier: real)
    requires q1 <= q3 && multiplier >= 0.0
    ensures LowerFence(q1, q3 - q1, multiplier) <= q1 && q3 <= UpperFence(q3, q3 - q1, multiplier)
  {
    MulNonNegative(multiplier, q3 - q1);
  }

  /**
   * With a non-negative multiplier the fences enclose the quartiles:
   * lower <= Q1 <= median <= Q3 <= upper.
   */
  lemma FencesEncloseQuartiles(data: seq<real>, multiplier: real)
    requires data != [] && multiplier >= 0.0
    ensures var s := ManualSort(data);
      var q1, q3 := Percentile(s, 25.0), Percentile(s, 75.0);
      LowerFence(q1, q3 - q1, multiplier) <= q1 <= Percentile(s, 50.0) <= q3 <= UpperFence(q3, q3 - q1, multiplier)
  {
    ManualSortCorrect(data);
    QuartilesOrdered(ManualSort(data), multiplier);
  }

  lemma QuartilesOrdered(s: seq<real>, multiplier: real)
    requires Sorted(s) && multiplier >= 0.0
    ensures var q1, q3 := Percentile(s, 25.0), Percentile(s, 75.0);
      LowerFence(q1, q3 - q1, multiplier) <= q1 <= Percentile(s, 50.0) <= q3 <= UpperFence(q3, q3 - q1, multiplier)
  {
    PercentileMonotone(s, 25.0, 50.0);
    PercentileMonotone(s, 50.0, 75.0);
    FenceOrder(Percentile(s, 25.0), Percentile(s, 75.0), multiplier);
  }

  /**
   * The scan of detect_outliers: the indices of the values outside
   * [lower, upper], in increasing order.
   */
  method CollectOutliers(data: seq<real>, lower: real, upper: real) returns (indices: seq<nat>)
    ensures forall i: nat :: i in indices <==> i < |data| && IsOutlier(data[i], lower, upper)
    ensures forall a, b :: 0 <= a < b < |indices| ==> indices[a] < indices[b]
  {
    indices := [];
    var i := 0;
    while i < |data|
      invariant 0 <= i <= |data|
      invariant forall j: nat :: j in indices <==> j < i && IsOutlier(data[j], lower, upper)
      invariant forall a, b :: 0 <= a < b < |indices| ==> indices[a] < indices[b]
      invariant forall a :: 0 <= a < |indices| ==> indices[a] < i
    {
      var value := data[i];
      if value < lower || value > upper {
        indices := indices + [i];
      }
      i := i + 1;
    }
  }

  class OutlierDetector {
    const multiplier: real
    var q1: Option<real>
    var q3: Option<real>
    var iqr: Option<real>
    var lowerBound: Option<real>
    var upperBound: Option<real>

    constructor (multiplier: real)
      ensures this.multiplier == multiplier
      ensures q1 == None && q3 == None && iqr == None && lowerBound == None && upperBound == None
    {
      this.multiplier := multiplier;
      q1, q3, iqr, lowerBound, upperBound := None, None, None, None, None;
    }

    /**
     * detect_outliers: sorts, stores the quartiles, IQR and fences on the
     * detector, and reports the indices of the values outside the fences.
     */
    method DetectOutliers(data: seq<real>) returns (indices: seq<nat>, stats: Option<OutlierStats>)
      modifies this
      ensures data == [] ==> indices == [] && stats == None
      ensures data == [] ==>
        q1 == old(q1) && q3 == old(q3) && iqr == old(iqr) &&
        lowerBound == old(lowerBound) && upperBound == old(upperBound)
      ensures data != [] ==>
        var s := ManualSort(data);
        var p25, p75 := Percentile(s, 25.0), Percentile(s, 75.0);
        && q1 == Some(p25) && q3 == Some(p75) && iqr == Some(p75 - p25)
        && lowerBound == Some(LowerFence(p25, p75 - p25, multiplier))
        && upperBound == Some(UpperFence(p75, p75 - p25, multiplier))
      ensures data != [] ==>
        forall i: nat :: i in indices <==> i < |data| && IsOutlier(data[i], lowerBound.value, upperBound.value)
      ensures forall a, b :: 0 <= a < b < |indices| ==> indices[a] < indices[b]
      ensures data != [] ==> (stats.Some? &&
        var st, s := stats.value, ManualSort(data);
        && st.totalRecords == |data|
        && st.outliersCount == |indices|
        && st.outlierPercentage == (|indices| as real / |data| as real) * 100.0
        && st.q1 == q1.value && st.q3 == q3.value && st.iqr == iqr.value
        && st.lowerBound == lowerBound.value && st.upperBound == upperBound.value
        && st.minValue == s[0] && st.maxValue == s[|s| - 1]
        && st.median == Percentile(s, 50.0))
    {
      if data == [] {
        return [], None;
      }
      var sorted := ManualSort(data);
      var p25, p75 := Percentile(sorted, 25.0), Percentile(sorted, 75.0);
      var lower, upper := LowerFence(p25, p75 - p25, multiplier), UpperFence(p75, p75 - p25, multiplier);
      q1, q3, iqr := Some(p25), Some(p75), Some(p75 - p25);
      lowerBound, upperBound := Some(lower), Some(upper);

      indices := CollectOutliers(data, lower, upper);

      stats := Some(OutlierStats(
        |data|,
        |indices|,
        (|indices| as real / |data| as real) * 100.0,
        p25, p75, p75 - p25,
        lower, upper,
        sorted[0], sorted[|sorted| - 1],
        Percentile(sorted, 50.0)));
    }
  }
}
