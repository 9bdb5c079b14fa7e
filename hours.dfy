/**
 * Hours of the day and per-hour tallies, shared by the peak-hour reduction
 * of frontend/js/main.js and aggregateTripsByHour of frontend/js/charts.js.
 * The hour is the one Date.prototype.getHours would extract from a trip's
 * pickup_datetime; None stands for a trip whose pickup_datetime is missing or
 * empty. Every present pickup_datetime is taken to parse, so the NaN hour of
 * an unparsable one has no value here.
 */
module Hours {
  import opened Wrappers
  import opened Text

  type Hour = h: int | 0 <= h < 24

  /** `${hour.toString().padStart(2, '0')}:00` */
  function HourLabel(h: Hour): (tag: string)
    ensures |tag| == 5 && tag[2..] == ":00"
    ensures AllDigits(tag[..2]) && DigitsValue(tag[..2]) == h
  {
    var digits := NatToString(h);
    assert |digits| <= 2 by {
      if h >= 10 { assert digits == NatToString(h / 10) + [DigitChar(h % 10)]; }
    }
    NatToStringRoundTrip(h);
    PadStart2Value(digits);
    var tag := PadStart2(digits) + ":00";
    assert tag[..2] == PadStart2(digits);
    tag
  }

  /** Different hours get different labels. */
  lemma HourLabelInjective(a: Hour, b: Hour)
    requires HourLabel(a) == HourLabel(b)
    ensures a == b
  {
    assert HourLabel(a)[..2] == HourLabel(b)[..2];
  }

  /** The number of trips whose pickup hour is h. */
  function CountHour(hours: seq<Option<Hour>>, h: Hour): (n: nat)
    ensures n <= |hours|
  {
    if hours == [] then 0
    else CountHour(hours[..|hours| - 1], h) + (if hours[|hours| - 1] == Some(h) then 1 else 0)
  }

  /** The number of trips that have a pickup hour at all. */
  function CountPresent(hours: seq<Option<Hour>>): (n: nat)
    ensures n <= |hours|
  {
    if hours == [] then 0
    else CountPresent(hours[..|hours| - 1]) + (if hours[|hours| - 1].Some? then 1 else 0)
  }

  /** CountHour(hours, 0) + ... + CountHour(hours, upTo - 1). */
  function SumCounts(hours: seq<Option<Hour>>, upTo: nat): nat
    requires upTo <= 24
  {
    if upTo == 0 then 0 else SumCounts(hours, upTo - 1) + CountHour(hours, upTo - 1)
  }

  /** Adding one trip adds one to the tally of its hour, if the hour is counted. */
  lemma {:induction false} SumCountsSnoc(hours: seq<Option<Hour>>, x: Option<Hour>, upTo: nat)
    requires upTo <= 24
    ensures SumCounts(hours + [x], upTo) ==
      SumCounts(hours, upTo) + (if x.Some? && x.value < upTo then 1 else 0)
  {
    assert (hours + [x])[..|hours|] == hours;
    if upTo > 0 {
      SumCountsSnoc(hours, x, upTo - 1);
    }
  }

  /** The 24 hourly tallies add up to the number of trips with a pickup hour. */
  lemma {:induction false} SumCountsIsPresent(hours: seq<Option<Hour>>)
    ensures SumCounts(hours, 24) == CountPresent(hours)
    decreases |hours|
  {
    if hours == [] {
      ZeroCounts(24);
    } else {
      var init := hours[..|hours| - 1];
      SumCountsIsPresent(init);
      SumCountsSnoc(init, hours[|hours| - 1], 24);
      assert init + [hours[|hours| - 1]] == hours;
    }
  }

  lemma {:induction false} ZeroCounts(upTo: nat)
    requires upTo <= 24
    ensures SumCounts([], upTo) == 0
  {
    if upTo > 0 {
      ZeroCounts(upTo - 1);
    }
  }

  /**
   * The per-hour tally both front-end files build in a forEach: each hour
   * that occurs mapped to its number of trips.
   */
  method TallyHours(hours: seq<Option<Hour>>) returns (counts: map<Hour, nat>)
    ensures forall h: Hour :: h in counts <==> CountHour(hours, h) > 0
    ensures forall h: Hour | h in counts :: counts[h] == CountHour(hours, h)
  {
    counts := map[];
    var i := 0;
    while i < |hours|
      invariant 0 <= i <= |hours|
      invariant forall h: Hour :: h in counts <==> CountHour(hours[..i], h) > 0
      invariant forall h: Hour | h in counts :: counts[h] == CountHour(hours[..i], h)
    {
      assert hours[..i + 1][..i] == hours[..i];
      if hours[i].Some? {
        var hour := hours[i].value;
        counts := counts[hour := (if hour in counts then counts[hour] else 0) + 1];
      }
      i := i + 1;
    }
    assert hours[..i] == hours;
  }
}
