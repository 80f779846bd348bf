/**
 * Peak of overlapping weighted intervals by a sweep over sorted start and end events. The sweep is
 * exact: it finds the greatest total weight of half-open intervals that cover one instant.
 */
module SweepLine {
  import opened Arithmetic
  import opened Sorting

  datatype Event = Event(time: real, delta: int)

  datatype Interval = Interval(start: real, end: real, weight: nat)

  function Events(intervals: seq<Interval>): seq<Event> {
    if intervals == [] then []
    else
      var n := |intervals| - 1;
      Events(intervals[..n]) + [Event(intervals[n].start, intervals[n].weight), Event(intervals[n].end, 0 - intervals[n].weight)]
  }

  /** By time; at equal times the smaller delta, so ends before starts. */
  predicate Le(a: Event, b: Event) {
    a.time < b.time || (a.time == b.time && a.delta <= b.delta)
  }

  function Prefix(es: seq<Event>, k: nat): int
    requires k <= |es|
  {
    if k == 0 then 0 else Prefix(es, k - 1) + es[k - 1].delta
  }

  /** The greatest prefix sum of the first `k` events, and at least zero. */
  function PeakUpTo(es: seq<Event>, k: nat): nat
    requires k <= |es|
  {
    if k == 0 then 0 else Max(PeakUpTo(es, k - 1), Prefix(es, k))
  }

  function Peak(intervals: seq<Interval>): nat {
    var es := Sort(Events(intervals), Le);
    PeakUpTo(es, |es|)
  }

  method PeakFromEvents(events: seq<Event>) returns (peak: nat)
    ensures var es := Sort(events, Le); peak == PeakUpTo(es, |es|)
  {
    var es := Sort(events, Le);
    var current := 0;
    peak := 0;
    for k := 0 to |es|
      invariant current == Prefix(es, k) && peak == PeakUpTo(es, k)
    {
      current := current + es[k].delta;
      peak := Max(peak, current);
    }
  }

  // ---- Coverage ----

  predicate Covers(interval: Interval, t: real) {
    interval.start <= t < interval.end
  }

  /** Total weight of the intervals that cover instant `t`. */
  function Cover(intervals: seq<Interval>, t: real): nat {
    if intervals == [] then 0
    else
      var n := |intervals| - 1;
      Cover(intervals[..n], t) + if Covers(intervals[n], t) then intervals[n].weight else 0
  }

  function Share(e: Event, t: real): int {
    if e.time <= t then e.delta else 0
  }

  /** Sum of the deltas of the events up to and including time `t`. */
  function SumUntil(es: seq<Event>, t: real): int {
    if es == [] then 0 else SumUntil(es[..|es| - 1], t) + Share(es[|es| - 1], t)
  }

  predicate Forward(intervals: seq<Interval>) {
    forall i :: 0 <= i < |intervals| ==> intervals[i].start <= intervals[i].end
  }

  lemma SumUntilSnoc(es: seq<Event>, e: Event, t: real)
    ensures SumUntil(es + [e], t) == SumUntil(es, t) + Share(e, t)
  {
    assert (es + [e])[..|es|] == es;
  }

  lemma {:induction false} CoverIsSum(intervals: seq<Interval>, t: real)
    requires Forward(intervals)
    ensures Cover(intervals, t) == SumUntil(Events(intervals), t)
  {
    if intervals != [] {
      var n := |intervals| - 1;
      var last, before := intervals[n], Events(intervals[..n]);
      CoverIsSum(intervals[..n], t);
      var start, end := Event(last.start, last.weight), Event(last.end, 0 - last.weight);
      SumUntilSnoc(before, start, t);
      SumUntilSnoc(before + [start], end, t);
      assert before + [start, end] == before + [start] + [end];
    }
  }

  lemma {:induction false} InsertSum(es: seq<Event>, e: Event, t: real)
    ensures SumUntil(Insert(es, e, Le), t) == SumUntil(es, t) + Share(e, t)
  {
    if es == [] || Le(es[|es| - 1], e) {
      SumUntilSnoc(es, e, t);
    } else {
      InsertSum(es[..|es| - 1], e, t);
      SumUntilSnoc(Insert(es[..|es| - 1], e, Le), es[|es| - 1], t);
    }
  }

  lemma {:induction false} SortSum(es: seq<Event>, t: real)
    ensures SumUntil(Sort(es, Le), t) == SumUntil(es, t)
  {
    if es != [] {
      SortSum(es[..|es| - 1], t);
      InsertSum(Sort(es[..|es| - 1], Le), es[|es| - 1], t);
    }
  }

  // ---- Exactness ----

  lemma {:induction false} PrefixAtMostPeak(es: seq<Event>, k: nat, n: nat)
    requires k <= n <= |es|
    ensures Prefix(es, k) <= PeakUpTo(es, n)
  {
    if k < n {
      PrefixAtMostPeak(es, k, n - 1);
    }
  }

  /** In a sorted list, the sum until `t` is the prefix sum of the events not after `t`. */
  lemma {:induction false} SumIsPrefix(es: seq<Event>, t: real) returns (k: nat)
    requires Sorted(es, Le)
    ensures k <= |es| && SumUntil(es, t) == Prefix(es, k)
    ensures forall i :: 0 <= i < k ==> es[i].time <= t
    ensures forall i :: k <= i < |es| ==> es[i].time > t
  {
    if es == [] {
      k := 0;
    } else {
      var n := |es| - 1;
      k := SumIsPrefix(es[..n], t);
      PrefixOfPrefix(es, n, k);
      assert k < n ==> es[..n][k].time > t && Le(es[k], es[n]);
      if es[n].time <= t {
        k := n + 1;
      }
    }
  }

  lemma {:induction false} PrefixOfPrefix(es: seq<Event>, n: nat, k: nat)
    requires k <= n <= |es|
    ensures Prefix(es[..n], k) == Prefix(es, k)
  {
    if k > 0 {
      PrefixOfPrefix(es, n, k - 1);
    }
  }

  /** Prefix sums do not fall while the deltas are positive. */
  lemma {:induction false} PrefixRises(es: seq<Event>, a: nat, b: nat)
    requires a <= b <= |es| && forall i :: a <= i < b ==> es[i].delta >= 0
    ensures Prefix(es, a) <= Prefix(es, b)
  {
    if a < b {
      PrefixRises(es, a, b - 1);
    }
  }

  /** Every prefix sum is matched by the events up to some instant. */
  lemma {:induction false} PrefixIsReached(es: seq<Event>, k: nat) returns (t: real)
    requires Sorted(es, Le) && k <= |es|
    ensures Prefix(es, k) <= 0 || Prefix(es, k) <= SumUntil(es, t)
  {
    if k == 0 {
      t := 0.0;
    } else if es[k - 1].delta <= 0 {
      t := PrefixIsReached(es, k - 1);
    } else {
      t := es[k - 1].time;
      var j := SumIsPrefix(es, t);
      forall i | k <= i < j
        ensures es[i].delta >= 0
      {
        assert Le(es[k - 1], es[i]);
      }
      PrefixRises(es, k, j);
    }
  }

  lemma {:induction false} PeakIsPrefix(es: seq<Event>, n: nat) returns (k: nat)
    requires n <= |es|
    ensures k <= n && PeakUpTo(es, n) == Max(0, Prefix(es, k))
  {
    if n == 0 {
      k := 0;
    } else {
      k := PeakIsPrefix(es, n - 1);
      if Prefix(es, n) > PeakUpTo(es, n - 1) {
        k := n;
      }
    }
  }

  /** The sweep returns the greatest coverage of any instant. */
  lemma PeakIsGreatestCover(intervals: seq<Interval>)
    requires Forward(intervals)
    ensures forall t :: Cover(intervals, t) <= Peak(intervals)
    ensures exists t :: Cover(intervals, t) == Peak(intervals)
  {
    var es := Sort(Events(intervals), Le);
    SortSorts(Events(intervals), Le);
    forall t
      ensures Cover(intervals, t) <= Peak(intervals)
      ensures Cover(intervals, t) == SumUntil(es, t)
    {
      CoverIsSum(intervals, t);
      SortSum(Events(intervals), t);
      var k := SumIsPrefix(es, t);
      PrefixAtMostPeak(es, k, |es|);
    }
    var k := PeakIsPrefix(es, |es|);
    var t := PrefixIsReached(es, k);
    if Peak(intervals) > 0 {
      assert Cover(intervals, t) == Peak(intervals);
    } else {
      assert Cover(intervals, t) == 0;
    }
  }

  /** More coverage at every instant, no smaller peak. */
  lemma PeakIsMonotone(a: seq<Interval>, b: seq<Interval>)
    requires Forward(a) && Forward(b) && forall t :: Cover(a, t) <= Cover(b, t)
    ensures Peak(a) <= Peak(b)
  {
    PeakIsGreatestCover(a);
    PeakIsGreatestCover(b);
    var t :| Cover(a, t) == Peak(a);
  }
}
