/** The spending chart's time buckets. */
module Chart {
  /** A payment event: whether it succeeded, when (in milliseconds), how much. */
  datatype Event = Event(success: bool, time: int, sats: int)

  datatype Bucket = Bucket(time: int, sats: int)

  const HOUR := 3_600_000
  const DAY := 86_400_000

  function BucketMs(range: int): (ms: int)
    ensures ms > 0
  {
    if range < HOUR then 300_000 else if range < 2 * DAY then HOUR else DAY
  }

  /** The number of a time's bucket; the bucket itself starts at number * ms. */
  function Slot(time: int, ms: int): int
    requires ms > 0
  {
    time / ms
  }

  // ----- Selecting and sorting

  function Successes(events: seq<Event>): seq<Event> {
    if events == [] then []
    else Successes(events[..|events| - 1]) + if events[|events| - 1].success then [events[|events| - 1]] else []
  }

  /** The successes are all there, as often as they were, and nothing else is. */
  lemma {:induction false} SuccessesExact(events: seq<Event>, e: Event)
    ensures multiset(Successes(events))[e] == if e.success then multiset(events)[e] else 0
  {
    if events != [] {
      var front, last := events[..|events| - 1], events[|events| - 1];
      SuccessesExact(front, e);
      assert events == front + [last];
    }
  }

  predicate Sorted(events: seq<Event>) {
    forall i, j :: 0 <= i < j < |events| ==> events[i].time <= events[j].time
  }

  /** Stable insertion: after the events that are not later. */
  function InsertByTime(events: seq<Event>, e: Event): (r: seq<Event>)
    requires Sorted(events)
    ensures Sorted(r) && multiset(r) == multiset(events) + multiset{e}
  {
    if events == [] || events[|events| - 1].time <= e.time then events + [e]
    else
      var front, last := events[..|events| - 1], events[|events| - 1];
      assert events == front + [last];
      var r := InsertByTime(front, e);
      InsertedBelow(front, e, last, r);
      assert multiset(r + [last]) == multiset(front) + multiset{e} + multiset{last};
      r + [last]
  }

  lemma InsertedBelow(front: seq<Event>, e: Event, last: Event, r: seq<Event>)
    requires Sorted(front + [last]) && e.time <= last.time && multiset(r) == multiset(front) + multiset{e}
    ensures forall i :: 0 <= i < |r| ==> r[i].time <= last.time
  {
    forall i | 0 <= i < |r|
      ensures r[i].time <= last.time
    {
      assert r[i] in multiset(r);
      if r[i] != e {
        assert r[i] in multiset(front);
        var j :| 0 <= j < |front| && front[j] == r[i];
        assert (front + [last])[j] == r[i] && (front + [last])[|front|] == last;
      }
    }
  }

  function SortByTime(events: seq<Event>): (r: seq<Event>)
    ensures Sorted(r) && multiset(r) == multiset(events)
  {
    if events == [] then []
    else
      assert events == events[..|events| - 1] + [events[|events| - 1]];
      InsertByTime(SortByTime(events[..|events| - 1]), events[|events| - 1])
  }

  lemma SortKeepsLength(events: seq<Event>)
    ensures |SortByTime(events)| == |events|
  {
    assert |multiset(SortByTime(events))| == |multiset(events)|;
  }

  // ----- Sums

  function Sum(events: seq<Event>): int {
    if events == [] then 0 else Sum(events[..|events| - 1]) + events[|events| - 1].sats
  }

  /** What the events of one slot add up to. */
  function SlotSum(events: seq<Event>, slot: int, ms: int): int
    requires ms > 0
  {
    if events == [] then 0
    else
      var last := events[|events| - 1];
      SlotSum(events[..|events| - 1], slot, ms) + if Slot(last.time, ms) == slot then last.sats else 0
  }

  /** The sums of the `n` slots from `start`. */
  function RangeSum(events: seq<Event>, start: int, n: nat, ms: int): int
    requires ms > 0
  {
    if n == 0 then 0 else RangeSum(events, start, n - 1, ms) + SlotSum(events, start + n - 1, ms)
  }

  function BucketSum(buckets: seq<Bucket>): int {
    if buckets == [] then 0 else BucketSum(buckets[..|buckets| - 1]) + buckets[|buckets| - 1].sats
  }

  lemma SlotSumSnoc(events: seq<Event>, e: Event, slot: int, ms: int)
    requires ms > 0
    ensures SlotSum(events + [e], slot, ms) == SlotSum(events, slot, ms)
                                             + if Slot(e.time, ms) == slot then e.sats else 0
  {
    assert (events + [e])[..|events|] == events;
  }

  lemma {:induction false} InsertSlotSum(events: seq<Event>, e: Event, slot: int, ms: int)
    requires ms > 0 && Sorted(events)
    ensures SlotSum(InsertByTime(events, e), slot, ms) == SlotSum(events, slot, ms)
                                                        + if Slot(e.time, ms) == slot then e.sats else 0
  {
    if events == [] || events[|events| - 1].time <= e.time {
      SlotSumSnoc(events, e, slot, ms);
    } else {
      var front, last := events[..|events| - 1], events[|events| - 1];
      InsertSlotSum(front, e, slot, ms);
      SlotSumSnoc(InsertByTime(front, e), last, slot, ms);
    }
  }

  /** Sorting moves nothing between slots. */
  lemma {:induction false} SortSlotSum(events: seq<Event>, slot: int, ms: int)
    requires ms > 0
    ensures SlotSum(SortByTime(events), slot, ms) == SlotSum(events, slot, ms)
  {
    if events != [] {
      SortSlotSum(events[..|events| - 1], slot, ms);
      InsertSlotSum(SortByTime(events[..|events| - 1]), events[|events| - 1], slot, ms);
    }
  }

  lemma {:induction false} RangeSumSnoc(events: seq<Event>, e: Event, start: int, n: nat, ms: int)
    requires ms > 0
    ensures RangeSum(events + [e], start, n, ms) ==
            RangeSum(events, start, n, ms) + if start <= Slot(e.time, ms) < start + n then e.sats else 0
  {
    if n > 0 {
      RangeSumSnoc(events, e, start, n - 1, ms);
      SlotSumSnoc(events, e, start + n - 1, ms);
    }
  }

  lemma {:induction false} RangeSumEmpty(start: int, n: nat, ms: int)
    requires ms > 0
    ensures RangeSum([], start, n, ms) == 0
  {
    if n > 0 { RangeSumEmpty(start, n - 1, ms); }
  }

  /** Slots that cover every event hold the whole sum. */
  lemma {:induction false} RangeSumIsSum(events: seq<Event>, start: int, n: nat, ms: int)
    requires ms > 0
    requires forall i :: 0 <= i < |events| ==> start <= Slot(events[i].time, ms) < start + n
    ensures RangeSum(events, start, n, ms) == Sum(events)
  {
    if events == [] {
      RangeSumEmpty(start, n, ms);
    } else {
      var front, last := events[..|events| - 1], events[|events| - 1];
      RangeSumIsSum(front, start, n, ms);
      RangeSumSnoc(front, last, start, n, ms);
      assert front + [last] == events;
    }
  }

  lemma {:induction false} SlotSumOutside(events: seq<Event>, slot: int, ms: int)
    requires ms > 0 && forall i :: 0 <= i < |events| ==> Slot(events[i].time, ms) != slot
    ensures SlotSum(events, slot, ms) == 0
  {
    if events != [] { SlotSumOutside(events[..|events| - 1], slot, ms); }
  }

  // ----- Slots and times

  lemma SlotMonotone(a: int, b: int, ms: int)
    requires ms > 0 && a <= b
    ensures Slot(a, ms) <= Slot(b, ms)
  {
    if ms == 300_000 {} else if ms == HOUR {} else if ms == DAY {} else {
      var p, q := a / ms, b / ms;
      if q < p { Scale(q + 1, p, ms); }
    }
  }

  lemma Scale(a: int, b: int, ms: int)
    requires ms > 0
    ensures a <= b <==> a * ms <= b * ms
    ensures a == b <==> a * ms == b * ms
    ensures (a + 1) * ms == a * ms + ms
  {
    if a < b { assert a * ms < b * ms; } else if b < a { assert b * ms < a * ms; }
  }

  /** How many slots a range of times can span. */
  lemma SlotCount(first: int, last: int)
    requires first <= last
    ensures var range := last - first; var ms := BucketMs(range);
            && (range < HOUR ==> Slot(last, ms) - Slot(first, ms) <= 12)
            && (HOUR <= range < 2 * DAY ==> Slot(last, ms) - Slot(first, ms) <= 48)
  {}

  lemma SortedSlots(sorted: seq<Event>, ms: int)
    requires ms > 0 && sorted != [] && Sorted(sorted)
    ensures forall i :: 0 <= i < |sorted| ==>
              Slot(sorted[0].time, ms) <= Slot(sorted[i].time, ms) <= Slot(sorted[|sorted| - 1].time, ms)
  {
    forall i | 0 <= i < |sorted|
      ensures Slot(sorted[0].time, ms) <= Slot(sorted[i].time, ms) <= Slot(sorted[|sorted| - 1].time, ms)
    {
      SlotMonotone(sorted[0].time, sorted[i].time, ms);
      SlotMonotone(sorted[i].time, sorted[|sorted| - 1].time, ms);
    }
  }

  // ----- The chart

  /** The filled buckets: `buckets` maps each slot's start to its sum. */
  ghost predicate Filled(buckets: map<int, int>, events: seq<Event>, ms: int)
    requires ms > 0
  {
    forall slot: int {:trigger SlotSum(events, slot, ms)} ::
      SlotSum(events, slot, ms) == if slot * ms in buckets then buckets[slot * ms] else 0
  }

  method FillBuckets(sorted: seq<Event>, ms: int) returns (buckets: map<int, int>)
    requires ms > 0
    ensures Filled(buckets, sorted, ms)
  {
    buckets := map[];
    for i := 0 to |sorted|
      invariant Filled(buckets, sorted[..i], ms)
    {
      var evt := sorted[i];
      var slot := Slot(evt.time, ms);
      var key := slot * ms;
      ghost var before := buckets;
      buckets := buckets[key := (if key in buckets then buckets[key] else 0) + evt.sats];
      assert sorted[..i + 1] == sorted[..i] + [evt];
      forall other: int
        ensures SlotSum(sorted[..i + 1], other, ms) == if other * ms in buckets then buckets[other * ms] else 0
      {
        SlotSumSnoc(sorted[..i], evt, other, ms);
        Scale(other, slot, ms);
      }
    }
    assert sorted[..|sorted|] == sorted;
  }

  /** The row of buckets from one slot to another. */
  ghost predicate IsRow(result: seq<Bucket>, events: seq<Event>, start: int, ms: int)
    requires ms > 0
  {
    forall i :: 0 <= i < |result| ==> result[i] == Bucket((start + i) * ms, SlotSum(events, start + i, ms))
  }

  lemma {:induction false} RowSum(result: seq<Bucket>, events: seq<Event>, start: int, ms: int)
    requires ms > 0 && IsRow(result, events, start, ms)
    ensures BucketSum(result) == RangeSum(events, start, |result|, ms)
  {
    if result != [] { RowSum(result[..|result| - 1], events, start, ms); }
  }

  method EmitBuckets(buckets: map<int, int>, ghost events: seq<Event>, startKey: int, endKey: int, ms: int,
                     ghost first: int, ghost last: int) returns (result: seq<Bucket>)
    requires ms > 0 && Filled(buckets, events, ms)
    requires startKey == first * ms && endKey == last * ms && first <= last
    ensures |result| == last - first + 1 && IsRow(result, events, first, ms)
  {
    result := [];
    var k := startKey;
    ghost var slot := first;
    Scale(first, last, ms);
    while k <= endKey
      invariant first <= slot <= last + 1 && k == slot * ms
      invariant k <= endKey <==> slot <= last
      invariant |result| == slot - first && IsRow(result, events, first, ms)
      decreases last - slot
    {
      assert SlotSum(events, slot, ms) == if k in buckets then buckets[k] else 0;
      result := result + [Bucket(k, if k in buckets then buckets[k] else 0)];
      Scale(slot, last, ms);
      Scale(slot + 1, last, ms);
      k := k + ms;
      slot := slot + 1;
    }
  }

  /** The first slot of a chart from `lo` to `hi`: one early when there is only one. */
  function ChartStart(lo: int, hi: int): int {
    var ms := BucketMs(hi - lo);
    if Slot(lo, ms) == Slot(hi, ms) then Slot(lo, ms) - 1 else Slot(lo, ms)
  }

  function ChartLength(lo: int, hi: int): int {
    var ms := BucketMs(hi - lo);
    if Slot(lo, ms) == Slot(hi, ms) then 2 else Slot(hi, ms) - Slot(lo, ms) + 1
  }

  /** The earliest and the latest time of some events. */
  ghost predicate IsSpan(events: seq<Event>, lo: int, hi: int) {
    && (forall i :: 0 <= i < |events| ==> lo <= events[i].time <= hi)
    && (exists i :: 0 <= i < |events| && events[i].time == lo)
    && (exists i :: 0 <= i < |events| && events[i].time == hi)
  }

  /** The chart of some events: a bucket for every slot from the earliest event's
      to the latest's, holding what that slot's events add up to. */
  ghost predicate IsChart(result: seq<Bucket>, events: seq<Event>, lo: int, hi: int) {
    IsRow(result, events, ChartStart(lo, hi), BucketMs(hi - lo)) && |result| == ChartLength(lo, hi)
  }

  /** The buckets of a non-empty list that is already sorted. */
  method BucketSorted(sorted: seq<Event>) returns (result: seq<Bucket>)
    requires sorted != [] && Sorted(sorted)
    ensures IsChart(result, sorted, sorted[0].time, sorted[|sorted| - 1].time)
  {
    var earliest, latest := sorted[0].time, sorted[|sorted| - 1].time;
    var ms := BucketMs(latest - earliest);
    var buckets := FillBuckets(sorted, ms);
    ghost var first, last := Slot(earliest, ms), Slot(latest, ms);
    SlotMonotone(earliest, latest, ms);
    result := EmitBuckets(buckets, sorted, Slot(earliest, ms) * ms, Slot(latest, ms) * ms, ms, first, last);
    if |result| == 1 {
      SortedSlots(sorted, ms);
      SlotSumOutside(sorted, first - 1, ms);
      Scale(first - 1, first, ms);
      assert result[0] == Bucket(first * ms, SlotSum(sorted, first, ms));
      result := [Bucket(result[0].time - ms, 0)] + result;
    }
  }

  /** `bucketEvents`: no bucket without a successful event, and otherwise the chart
      of the successful events. */
  method BucketEvents(events: seq<Event>) returns (result: seq<Bucket>, ghost lo: int, ghost hi: int)
    ensures Successes(events) == [] ==> result == []
    ensures Successes(events) != [] ==> IsSpan(Successes(events), lo, hi) && IsChart(result, Successes(events), lo, hi)
  {
    lo, hi := 0, 0;
    if events == [] {
      return [], lo, hi;
    }
    var sorted := SortByTime(Successes(events));
    SortKeepsLength(Successes(events));
    if sorted == [] {
      return [], lo, hi;
    }
    lo, hi := sorted[0].time, sorted[|sorted| - 1].time;
    result := BucketSorted(sorted);
    SortedChart(result, sorted, Successes(events), lo, hi);
  }

  lemma SortedChart(result: seq<Bucket>, sorted: seq<Event>, chosen: seq<Event>, lo: int, hi: int)
    requires sorted == SortByTime(chosen) && sorted != [] && lo == sorted[0].time && hi == sorted[|sorted| - 1].time
    requires IsChart(result, sorted, lo, hi)
    ensures IsSpan(chosen, lo, hi) && IsChart(result, chosen, lo, hi)
  {
    var ms := BucketMs(hi - lo);
    forall slot ensures SlotSum(sorted, slot, ms) == SlotSum(chosen, slot, ms) { SortSlotSum(chosen, slot, ms); }
    SameRow(result, sorted, chosen, ChartStart(lo, hi), ms);
    SortedSpan(sorted, chosen);
  }

  lemma SameRow(result: seq<Bucket>, sorted: seq<Event>, chosen: seq<Event>, start: int, ms: int)
    requires ms > 0 && IsRow(result, sorted, start, ms)
    requires forall slot :: SlotSum(sorted, slot, ms) == SlotSum(chosen, slot, ms)
    ensures IsRow(result, chosen, start, ms)
  {}

  lemma SortedSpan(sorted: seq<Event>, chosen: seq<Event>)
    requires sorted != [] && Sorted(sorted) && multiset(sorted) == multiset(chosen)
    ensures IsSpan(chosen, sorted[0].time, sorted[|sorted| - 1].time)
  {
    assert sorted[0] in multiset(chosen) && sorted[|sorted| - 1] in multiset(chosen);
    forall i | 0 <= i < |chosen|
      ensures sorted[0].time <= chosen[i].time <= sorted[|sorted| - 1].time
    {
      assert chosen[i] in multiset(sorted);
      var j :| 0 <= j < |sorted| && sorted[j] == chosen[i];
    }
  }

  // ----- What every chart satisfies

  /** Conservation: the buckets add up to the events. */
  lemma ChartConserves(result: seq<Bucket>, events: seq<Event>, lo: int, hi: int)
    requires IsSpan(events, lo, hi) && IsChart(result, events, lo, hi)
    ensures BucketSum(result) == Sum(events)
  {
    var ms := BucketMs(hi - lo);
    RowSum(result, events, ChartStart(lo, hi), ms);
    forall i | 0 <= i < |events|
      ensures ChartStart(lo, hi) <= Slot(events[i].time, ms) < ChartStart(lo, hi) + |result|
    {
      SlotMonotone(lo, events[i].time, ms);
      SlotMonotone(events[i].time, hi, ms);
    }
    RangeSumIsSum(events, ChartStart(lo, hi), |result|, ms);
  }

  /** At least two buckets, at most 13 for less than an hour and at most 49 for less
      than two days. */
  lemma ChartSize(result: seq<Bucket>, events: seq<Event>, lo: int, hi: int)
    requires IsSpan(events, lo, hi) && IsChart(result, events, lo, hi)
    ensures |result| >= 2
    ensures hi - lo < HOUR ==> |result| <= 13
    ensures HOUR <= hi - lo < 2 * DAY ==> |result| <= 49
  {
    SlotMonotone(lo, hi, BucketMs(hi - lo));
    SlotCount(lo, hi);
  }

  /** What the events of a time interval add up to. */
  function SumBetween(events: seq<Event>, from: int, before: int): int {
    if events == [] then 0
    else
      var last := events[|events| - 1];
      SumBetween(events[..|events| - 1], from, before) + if from <= last.time < before then last.sats else 0
  }

  lemma SlotHolds(time: int, slot: int, ms: int)
    requires ms > 0
    ensures Slot(time, ms) == slot <==> slot * ms <= time < slot * ms + ms
  {
    var q, r := time / ms, time % ms;
    assert time == q * ms + r && 0 <= r < ms;
    Scale(q, slot, ms);
    Scale(slot, q, ms);
    if q < slot { Scale(q + 1, slot, ms); }
    if slot < q { Scale(slot + 1, q, ms); }
  }

  lemma {:induction false} SlotSumBetween(events: seq<Event>, slot: int, ms: int)
    requires ms > 0
    ensures SlotSum(events, slot, ms) == SumBetween(events, slot * ms, slot * ms + ms)
  {
    if events != [] {
      SlotSumBetween(events[..|events| - 1], slot, ms);
      SlotHolds(events[|events| - 1].time, slot, ms);
    }
  }

  /** A bucket holds what the events between its time and the next one's add up to. A
      bucket is five minutes, an hour or a day: an hour from a span of one hour on, a
      day from two days on. */
  lemma BucketHolds(result: seq<Bucket>, events: seq<Event>, lo: int, hi: int, i: nat)
    requires IsSpan(events, lo, hi) && IsChart(result, events, lo, hi) && i < |result|
    ensures var ms := if hi - lo < 60 * 60 * 1000 then 5 * 60 * 1000
                      else if hi - lo < 48 * 60 * 60 * 1000 then 60 * 60 * 1000
                      else 24 * 60 * 60 * 1000;
            result[i].sats == SumBetween(events, result[i].time, result[i].time + ms)
  {
    SlotSumBetween(events, ChartStart(lo, hi) + i, BucketMs(hi - lo));
  }

  /** The times of a row are evenly spaced and increasing. */
  lemma EvenlySpaced(result: seq<Bucket>, events: seq<Event>, start: int, ms: int, i: nat)
    requires ms > 0 && IsRow(result, events, start, ms) && i + 1 < |result|
    ensures result[i + 1].time == result[i].time + ms > result[i].time
  {
    assert result[i].time == (start + i) * ms && result[i + 1].time == (start + (i + 1)) * ms;
    Scale(start + i, start + i + 1, ms);
  }
}
