/**
 * find_top_k_trips_by_duration (backend/app/utils/custom_algorithms.py): the
 * k longest trips, longest first, selected with a min-heap of size k.
 */
module TopTrips {
  import opened Wrappers
  import opened MinHeap

  /** A trip record: its id and its trip_duration_hours, absent or None alike. */
  datatype Trip = Trip(tripId: int, durationHours: Option<real>)

  /** `trip.get('trip_duration_hours', 0) or 0`: a missing or None duration counts as 0. */
  function Duration(t: Trip): (d: real)
    ensures t.durationHours.None? ==> d == 0.0
    ensures t.durationHours.Some? ==> d == t.durationHours.value
  {
    t.durationHours.GetOr(0.0)
  }

  /** The heap entry the source pushes for a trip: (duration, trip). */
  function Key(t: Trip): Item<Trip> {
    Item(Duration(t), t)
  }

  function Keyed(trips: seq<Trip>): (r: seq<Item<Trip>>)
    ensures |r| == |trips|
    ensures forall i | 0 <= i < |trips| :: r[i] == Key(trips[i])
  {
    seq(|trips|, i requires 0 <= i < |trips| => Key(trips[i]))
  }

  function Reversed<X>(s: seq<X>): (r: seq<X>)
    ensures |r| == |s|
    ensures forall i | 0 <= i < |s| :: r[i] == s[|s| - 1 - i]
  {
    if s == [] then [] else [s[|s| - 1]] + Reversed(s[..|s| - 1])
  }

  lemma {:induction false} ReversedPermutes<X>(s: seq<X>)
    ensures multiset(Reversed(s)) == multiset(s)
  {
    if s != [] {
      ReversedPermutes(s[..|s| - 1]);
      assert s == s[..|s| - 1] + [s[|s| - 1]];
    }
  }

  /** Longest first: durations never increase along the list. */
  ghost predicate ByDurationDescending(trips: seq<Trip>) {
    forall i, j | 0 <= i < j < |trips| :: Duration(trips[i]) >= Duration(trips[j])
  }

  function Min(a: int, b: int): int { if a <= b then a else b }

  lemma KeyedReversed(s: seq<Trip>)
    ensures Keyed(Reversed(s)) == Reversed(Keyed(s))
  {}

  /** Reversing a list in ascending order of duration gives one that is longest first. */
  lemma ReversedDescending(s: seq<Trip>)
    requires ByDurationAscending(s)
    ensures ByDurationDescending(Reversed(s))
  {
    var r := Reversed(s);
    forall i, j | 0 <= i < j < |r| ensures Duration(r[i]) >= Duration(r[j]) {
      assert r[i] == s[|s| - 1 - i] && r[j] == s[|s| - 1 - j];
    }
  }

  /** Everything in `low` is no longer than anything in `high`. */
  ghost predicate Below(low: multiset<Item<Trip>>, high: multiset<Item<Trip>>) {
    forall x, y | x in low && y in high :: x.priority <= y.priority
  }

  /** Evicting the least entry for a longer one keeps the dropped entries below the heap. */
  lemma EvictKeepsBelow(dropped: multiset<Item<Trip>>, before: multiset<Item<Trip>>, least: Item<Trip>, entry: Item<Trip>)
    requires Below(dropped, before) && least in before
    requires forall y | y in before :: least.priority <= y.priority
    requires entry.priority > least.priority
    ensures Below(dropped + multiset{least}, before - multiset{least} + multiset{entry})
  {
    forall x, y | x in dropped + multiset{least} && y in before - multiset{least} + multiset{entry}
      ensures x.priority <= y.priority
    {
      if y != entry {
        assert y in before;
      }
    }
  }

  lemma EvictBalances(before: multiset<Item<Trip>>, dropped: multiset<Item<Trip>>, least: Item<Trip>, entry: Item<Trip>)
    requires least in before
    ensures (before - multiset{least} + multiset{entry}) + (dropped + multiset{least}) == before + dropped + multiset{entry}
  {}

  /** Passing over an entry no longer than the least keeps the dropped entries below the heap. */
  lemma PassKeepsBelow(dropped: multiset<Item<Trip>>, heap: multiset<Item<Trip>>, entry: Item<Trip>)
    requires Below(dropped, heap)
    requires forall y | y in heap :: entry.priority <= y.priority
    ensures Below(dropped + multiset{entry}, heap)
  {}

  /** Growing the heap while nothing has been dropped keeps the dropped entries below it. */
  lemma NothingDroppedIsBelow(heap: multiset<Item<Trip>>)
    ensures Below(multiset{}, heap)
  {}

  /**
   * One iteration of the selection loop: push the trip while the heap holds
   * fewer than k entries; otherwise peek, and replace the root when the trip
   * is longer. Every entry that leaves (or never enters) the heap is no
   * longer than any entry that stays.
   */
  method Offer(heap: CustomMinHeap<Trip>, trip: Trip, k: int, ghost dropped: multiset<Item<Trip>>)
    returns (r: Result<(), HeapError>, ghost dropped': multiset<Item<Trip>>)
    requires heap.Valid()
    requires Below(dropped, multiset(heap.heap))
    requires dropped != multiset{} ==> |heap.heap| >= k
    modifies heap
    ensures heap.Valid()
    ensures r.Err? <==> k < 1 && old(heap.heap) == []
    ensures r.Err? ==> r.error == IndexError(EmptyHeapMessage)
    ensures r.Ok? ==> |heap.heap| == if |old(heap.heap)| < k then |old(heap.heap)| + 1 else |old(heap.heap)|
    ensures r.Ok? ==> multiset(heap.heap) + dropped' == multiset(old(heap.heap)) + dropped + multiset{Key(trip)}
    ensures r.Ok? ==> Below(dropped', multiset(heap.heap))
    ensures r.Ok? ==> dropped' != multiset{} ==> |heap.heap| >= k
  {
    var duration := Duration(trip);
    dropped' := dropped;
    if heap.Size() < k {
      heap.Insert(duration, trip);
      NothingDroppedIsBelow(multiset(heap.heap));
      return Ok(()), dropped';
    }
    var top := heap.Peek();
    if top.Err? {
      return Err(top.error), dropped';
    }
    var least := top.value;
    ghost var before := multiset(heap.heap);
    assert least in before;
    assert forall y | y in before :: least.priority <= y.priority;
    if duration > least.priority {
      var _ := heap.ExtractMin();
      heap.Insert(duration, trip);
      EvictKeepsBelow(dropped, before, least, Key(trip));
      EvictBalances(before, dropped, least, Key(trip));
      dropped' := dropped + multiset{least};
    } else {
      PassKeepsBelow(dropped, before, Key(trip));
      dropped' := dropped + multiset{Key(trip)};
    }
    return Ok(()), dropped';
  }

  /**
   * The selection pass: after it, the heap holds min(k, |trips|) entries of
   * the trips, and every entry that was passed over or evicted is no longer
   * than any entry kept. With k < 1 the first trip makes the source peek
   * into the empty heap, which raises IndexError.
   */
  method SelectLongest(trips: seq<Trip>, k: int)
    returns (heap: CustomMinHeap<Trip>, r: Result<(), HeapError>, ghost dropped: multiset<Item<Trip>>)
    ensures fresh(heap) && heap.Valid()
    ensures r.Err? <==> k < 1 && trips != []
    ensures r.Err? ==> r.error == IndexError(EmptyHeapMessage)
    ensures r.Ok? && trips != [] ==> |heap.heap| == Min(k, |trips|)
    ensures r.Ok? ==> multiset(heap.heap) + dropped == multiset(Keyed(trips))
    ensures r.Ok? ==> Below(dropped, multiset(heap.heap))
  {
    heap := new CustomMinHeap<Trip>();
    dropped := multiset{};
    var i := 0;
    NothingDroppedIsBelow(multiset{});
    while i < |trips|
      invariant fresh(heap) && heap.Valid()
      invariant Selected(trips, i, k, heap.heap, dropped)
    {
      ghost var held, passed := heap.heap, dropped;
      var step;
      step, dropped := Offer(heap, trips[i], k, dropped);
      if step.Err? {
        return heap, step, dropped;
      }
      SelectStep(trips, i, k, held, passed, heap.heap, dropped);
      i := i + 1;
    }
    assert trips[..i] == trips;
    r := Ok(());
  }

  /**
   * The state of the selection pass after the first i trips: the heap holds
   * min(k, i) entries, nothing is lost, and what was dropped is below what
   * is held (and only dropped once the heap is full).
   */
  ghost predicate Selected(trips: seq<Trip>, i: int, k: int, held: seq<Item<Trip>>, dropped: multiset<Item<Trip>>) {
    && 0 <= i <= |trips|
    && (i > 0 ==> k >= 1 && |held| == Min(k, i))
    && (i == 0 ==> held == [])
    && multiset(held) + dropped == multiset(Keyed(trips[..i]))
    && Below(dropped, multiset(held))
    && (dropped != multiset{} ==> |held| >= k)
  }

  /** One successful Offer advances the selection pass by one trip. */
  lemma SelectStep(trips: seq<Trip>, i: nat, k: int, held: seq<Item<Trip>>, passed: multiset<Item<Trip>>,
                   heap: seq<Item<Trip>>, dropped: multiset<Item<Trip>>)
    requires Selected(trips, i, k, held, passed) && i < |trips|
    requires k >= 1 || held != []
    requires |heap| == if |held| < k then |held| + 1 else |held|
    requires multiset(heap) + dropped == multiset(held) + passed + multiset{Key(trips[i])}
    requires Below(dropped, multiset(heap))
    requires dropped != multiset{} ==> |heap| >= k
    ensures Selected(trips, i + 1, k, heap, dropped)
  {
    KeyedSnoc(trips, i);
  }

  lemma KeyedSnoc(trips: seq<Trip>, i: nat)
    requires i < |trips|
    ensures multiset(Keyed(trips[..i + 1])) == multiset(Keyed(trips[..i])) + multiset{Key(trips[i])}
  {
    assert Keyed(trips[..i + 1]) == Keyed(trips[..i]) + [Key(trips[i])];
  }

  /** Every entry pairs a trip with that trip's own duration. */
  ghost predicate AllKeys(m: multiset<Item<Trip>>) {
    forall y | y in m :: y == Key(y.data)
  }

  /** Shortest first: durations never decrease along the list. */
  ghost predicate ByDurationAscending(trips: seq<Trip>) {
    forall i, j | 0 <= i < j < |trips| :: Duration(trips[i]) <= Duration(trips[j])
  }

  /** Moving the least heap entry to the output keeps the output below the heap. */
  lemma DrainStep(items: seq<Item<Trip>>, before: multiset<Item<Trip>>, least: Item<Trip>)
    requires Below(multiset(items), before) && least in before && AllKeys(before)
    requires forall y | y in before :: least.priority <= y.priority
    ensures Below(multiset(items + [least]), before - multiset{least})
    ensures AllKeys(before - multiset{least})
    ensures multiset(items + [least]) + (before - multiset{least}) == multiset(items) + before
    ensures forall i | 0 <= i < |items| :: items[i].priority <= least.priority
  {
    assert multiset(items + [least]) == multiset(items) + multiset{least};
    forall x, y | x in multiset(items + [least]) && y in before - multiset{least}
      ensures x.priority <= y.priority
    {
      assert y in before;
    }
    forall i | 0 <= i < |items| ensures items[i].priority <= least.priority {
      assert items[i] in multiset(items);
    }
  }

  /** Appending an entry no shorter than the output keeps the output keyed and ascending. */
  lemma DrainAppend(out: seq<Trip>, items: seq<Item<Trip>>, item: Item<Trip>)
    requires items == Keyed(out) && ByDurationAscending(out)
    requires item == Key(item.data)
    requires forall i | 0 <= i < |items| :: items[i].priority <= item.priority
    ensures items + [item] == Keyed(out + [item.data])
    ensures ByDurationAscending(out + [item.data])
  {
  }

  /**
   * The drain pass: extract_min until the heap is empty, which lists the
   * entries in ascending order of duration.
   */
  method DrainAscending(heap: CustomMinHeap<Trip>) returns (out: seq<Trip>, ghost items: seq<Item<Trip>>)
    requires heap.Valid() && AllKeys(multiset(heap.heap))
    modifies heap
    ensures heap.heap == []
    ensures multiset(items) == multiset(old(heap.heap))
    ensures items == Keyed(out)
    ensures ByDurationAscending(out)
  {
    out, items := [], [];
    while !heap.IsEmpty()
      invariant heap.Valid() && AllKeys(multiset(heap.heap))
      invariant multiset(items) + multiset(heap.heap) == multiset(old(heap.heap))
      invariant items == Keyed(out) && ByDurationAscending(out)
      invariant Below(multiset(items), multiset(heap.heap))
      decreases |heap.heap|
    {
      ghost var before := heap.heap;
      var m := heap.ExtractMin();
      var item := m.value;
      DrainStep(items, multiset(before), item);
      DrainAppend(out, items, item);
      out, items := out + [item.data], items + [item];
    }
  }

  lemma KeptAreKeys(trips: seq<Trip>, kept: multiset<Item<Trip>>, dropped: multiset<Item<Trip>>)
    requires kept + dropped == multiset(Keyed(trips))
    ensures AllKeys(kept)
  {
    forall y | y in kept ensures y == Key(y.data) {
      assert y in multiset(Keyed(trips));
    }
  }

  /** The returned trips come from the input, and every trip left out is no longer than any returned. */
  lemma LeftOutAreShorter(trips: seq<Trip>, result: seq<Trip>, kept: multiset<Item<Trip>>, dropped: multiset<Item<Trip>>)
    requires kept + dropped == multiset(Keyed(trips))
    requires multiset(Keyed(result)) == kept
    requires Below(dropped, kept)
    ensures multiset(Keyed(result)) <= multiset(Keyed(trips))
    ensures forall x, t | x in multiset(Keyed(trips)) - multiset(Keyed(result)) && t in result ::
      x.priority <= Duration(t)
  {
    assert multiset(Keyed(trips)) - multiset(Keyed(result)) == dropped;
    forall x, t | x in dropped && t in result ensures x.priority <= Duration(t) {
      var j :| 0 <= j < |result| && result[j] == t;
      assert Keyed(result)[j] in kept;
    }
  }

  /**
   * find_top_k_trips_by_duration: the min(k, |trips|) longest trips, longest
   * first; every trip left out is no longer than any trip returned. Raises
   * IndexError when k < 1 and there is at least one trip.
   */
  method FindTopKTripsByDuration(trips: seq<Trip>, k: int) returns (r: Result<seq<Trip>, HeapError>)
    ensures r.Err? <==> k < 1 && trips != []
    ensures r.Err? ==> r.error == IndexError(EmptyHeapMessage)
    ensures r.Ok? && trips != [] ==> |r.value| == Min(k, |trips|)
    ensures r.Ok? && trips == [] ==> r.value == []
    ensures r.Ok? ==> ByDurationDescending(r.value)
    ensures r.Ok? ==> multiset(Keyed(r.value)) <= multiset(Keyed(trips))
    ensures r.Ok? ==> forall x, t | x in multiset(Keyed(trips)) - multiset(Keyed(r.value)) && t in r.value ::
      x.priority <= Duration(t)
  {
    var heap, selected, dropped := SelectLongest(trips, k);
    if selected.Err? {
      return Err(selected.error);
    }
    ghost var kept := multiset(heap.heap);
    KeptAreKeys(trips, kept, dropped);
    var ascending, items := DrainAscending(heap);
    var result := Reversed(ascending);
    KeyedReversed(ascending);
    ReversedPermutes(items);
    ReversedDescending(ascending);
    LeftOutAreShorter(trips, result, kept, dropped);
    return Ok(result);
  }
}
