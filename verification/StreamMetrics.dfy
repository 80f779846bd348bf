/**
 * What the metrics of a finished run measure: total and greatest head-of-line delay, the bytes buffered
 * behind it, the bytes the sender retains, and when the sender falls quiet.
 */
module StreamMetrics {
  import opened Arithmetic
  import opened StreamModel
  import opened StreamInvariant
  import opened StreamSums
  import opened StreamCost
  import opened StreamRun
  import opened StreamDelivery
  import opened StreamHol
  import opened StreamTiming
  import opened SweepLine

  ghost predicate AllUnitsOf(env: Env, us: seq<Unit>) {
    forall i :: 0 <= i < |us| ==> HasUnit(env.messages, us[i])
  }

  // ---- Head-of-line delay ----

  /** When a stream chunk is delivered; nothing for a datagram. */
  ghost function StreamDelivered(env: Env, arrival: map<Unit, real>, places: Places): Unit -> real {
    u => if u in places.of && u in arrival then Delivered(env, arrival, places, u) else 0.0
  }

  /** When a stream chunk arrives; nothing for a datagram. */
  ghost function StreamArrived(arrival: map<Unit, real>, places: Places): Unit -> real {
    u => if u in places.of && u in arrival then arrival[u] else 0.0
  }

  /** No chunk waits a negative time: its delay is delivery minus arrival. */
  lemma WaitIsLateness(env: Env, arrival: map<Unit, real>, places: Places, u: Unit)
    requires Landed(env, arrival, places) && HasUnit(env.messages, u) && u in arrival
    ensures Wait(env, arrival, places, u) == StreamDelivered(env, arrival, places)(u) - StreamArrived(arrival, places)(u)
    ensures Wait(env, arrival, places, u) >= 0.0
  {
    DeliveredWithin(env, arrival, places, u);
  }

  /** The total delay of any chunks is the sum of their deliveries less the sum of their arrivals. */
  lemma {:induction false} TotalHolIsLateness(env: Env, arrival: map<Unit, real>, places: Places, us: seq<Unit>, k: nat)
    requires Landed(env, arrival, places) && AllUnitsOf(env, us) && AllIn(us, arrival) && k <= |us|
    ensures TotalHol(env, arrival, places, us, k)
         == Total(us[..k], StreamDelivered(env, arrival, places)) - Total(us[..k], StreamArrived(arrival, places))
  {
    if k > 0 {
      var u := us[k - 1];
      TotalHolIsLateness(env, arrival, places, us, k - 1);
      WaitIsLateness(env, arrival, places, u);
      assert us[..k] == us[..k - 1] + [u];
      TotalSnoc(us[..k - 1], u, StreamDelivered(env, arrival, places));
      TotalSnoc(us[..k - 1], u, StreamArrived(arrival, places));
    }
  }

  /** The greatest delay bounds every chunk's and is some chunk's, or nothing is delayed. */
  lemma {:induction false} MaxHolIsGreatest(env: Env, arrival: map<Unit, real>, places: Places, us: seq<Unit>, k: nat)
    requires Landed(env, arrival, places) && AllUnitsOf(env, us) && AllIn(us, arrival) && k <= |us|
    ensures var late := (u: Unit) => StreamDelivered(env, arrival, places)(u) - StreamArrived(arrival, places)(u);
      && (forall i :: 0 <= i < k ==> late(us[i]) <= MaxHol(env, arrival, places, us, k))
      && (MaxHol(env, arrival, places, us, k) == 0.0 || exists i :: 0 <= i < k && late(us[i]) == MaxHol(env, arrival, places, us, k))
  {
    if k > 0 {
      MaxHolIsGreatest(env, arrival, places, us, k - 1);
      WaitIsLateness(env, arrival, places, us[k - 1]);
    }
  }

  // ---- Bytes behind the head of line ----

  /** Useful bytes of the stream chunks among the first `k` that have arrived by `t` and are not yet delivered. */
  ghost function Buffered(env: Env, arrival: map<Unit, real>, places: Places, us: seq<Unit>, k: nat, t: real): nat
    requires AllUnitsOf(env, us) && AllIn(us, arrival) && k <= |us|
  {
    if k == 0 then 0
    else
      var u := us[k - 1];
      Buffered(env, arrival, places, us, k - 1, t)
        + if u in places.of && arrival[u] <= t < Delivered(env, arrival, places, u)
          then env.messages[u.message].chunks[u.chunk].useful else 0
  }

  lemma {:induction false} CoverIsBuffered(env: Env, arrival: map<Unit, real>, places: Places, us: seq<Unit>, k: nat, t: real)
    requires AllUnitsOf(env, us) && AllIn(us, arrival) && k <= |us|
    ensures Cover(HolIntervals(env, arrival, places, us, k), t) == Buffered(env, arrival, places, us, k, t)
  {
    if k > 0 {
      CoverIsBuffered(env, arrival, places, us, k - 1, t);
      CoverNext(env, arrival, places, us, k, t);
    }
  }

  /** The peak is the greatest number of bytes buffered at any instant, and reached at some instant. */
  lemma PeakHolIsGreatestBuffer(env: Env, arrival: map<Unit, real>, places: Places, us: seq<Unit>)
    requires AllUnitsOf(env, us) && AllIn(us, arrival)
    ensures forall t :: Buffered(env, arrival, places, us, |us|, t) <= PeakHol(env, arrival, places, us)
    ensures exists t :: Buffered(env, arrival, places, us, |us|, t) == PeakHol(env, arrival, places, us)
  {
    var intervals := HolIntervals(env, arrival, places, us, |us|);
    HolForward(env, arrival, places, us, |us|);
    PeakIsGreatestCover(intervals);
    forall t
      ensures Cover(intervals, t) == Buffered(env, arrival, places, us, |us|, t)
    {
      CoverIsBuffered(env, arrival, places, us, |us|, t);
    }
    var t :| Cover(intervals, t) == Peak(intervals);
    assert Buffered(env, arrival, places, us, |us|, t) == PeakHol(env, arrival, places, us);
  }

  // ---- Bytes the sender retains ----

  /** What the sender retains of chunk `u` at `t`: all of it from its first send until its acknowledgement is back. */
  ghost function RetainedOf(env: Env, air: Air, places: Places, u: Unit, t: real): nat {
    if u in places.of && HasUnit(env.messages, u) && u in air.firstSend && u in air.arrival
       && air.firstSend[u] <= t < air.arrival[u] + env.link.rtt / 2.0
    then env.messages[u.message].chunks[u.chunk].streamWire else 0
  }

  ghost function Retained(env: Env, air: Air, places: Places, us: seq<Unit>, k: nat, t: real): nat
    requires k <= |us|
  {
    if k == 0 then 0 else Retained(env, air, places, us, k - 1, t) + RetainedOf(env, air, places, us[k - 1], t)
  }

  lemma SenderCoverNext(env: Env, air: Air, places: Places, us: seq<Unit>, k: nat, t: real)
    requires AllIn(us, air.arrival) && AllFirstSent(env, air, places, us) && 0 < k <= |us|
    ensures Cover(SenderIntervals(env, air, places, us, k), t)
         == Cover(SenderIntervals(env, air, places, us, k - 1), t) + RetainedOf(env, air, places, us[k - 1], t)
  {
    var u, before := us[k - 1], SenderIntervals(env, air, places, us, k - 1);
    if u in places.of {
      CoverSnoc(before, Interval(air.firstSend[u], air.arrival[u] + env.link.rtt / 2.0,
                                 env.messages[u.message].chunks[u.chunk].streamWire), t);
    }
  }

  lemma {:induction false} CoverIsRetained(env: Env, air: Air, places: Places, us: seq<Unit>, k: nat, t: real)
    requires AllIn(us, air.arrival) && AllFirstSent(env, air, places, us) && k <= |us|
    ensures Cover(SenderIntervals(env, air, places, us, k), t) == Retained(env, air, places, us, k, t)
  {
    if k > 0 {
      CoverIsRetained(env, air, places, us, k - 1, t);
      SenderCoverNext(env, air, places, us, k, t);
    }
  }

  /** Nothing arrives before it was first sent. */
  lemma ArrivesAfterFirstSend(env: Env, h: History, n: nat, u: Unit)
    requires Sane(env) && IsRun(env, h) && u in h(n).air.arrival
    ensures u in h(n).air.firstSend && h(n).air.firstSend[u] + env.link.rtt / 2.0 <= h(n).air.arrival[u]
  {
    ArrivalIsEarliestLanding(env, h, n, u);
    FirstSendIsFirstAttempt(env, h, n, u);
    var i :| 0 <= i < n && Lands(env, h, i, u) && h(n).air.arrival[u] == LandsAt(env, h, i, u);
    var f :| 0 <= f < n && FirstSentIn(h, f, u) && h(n).air.firstSend[u] == EndOf(h, f);
    EndsNeverFall(env, h, f, i);
  }

  lemma {:induction false} SenderForward(env: Env, h: History, n: nat, us: seq<Unit>, k: nat)
    requires Sane(env) && IsRun(env, h) && AllIn(us, h(n).air.arrival) && k <= |us|
    requires AllFirstSent(env, h(n).air, h(n).places, us)
    ensures Forward(SenderIntervals(env, h(n).air, h(n).places, us, k))
  {
    if k > 0 {
      SenderForward(env, h, n, us, k - 1);
      ArrivesAfterFirstSend(env, h, n, us[k - 1]);
    }
  }

  /** The sender's peak is the greatest number of bytes it retains at any instant, and reached at some instant. */
  lemma PeakSenderIsGreatest(env: Env, h: History, n: nat, us: seq<Unit>, intervals: seq<Interval>)
    requires Sane(env) && IsRun(env, h) && AllIn(us, h(n).air.arrival) && AllFirstSent(env, h(n).air, h(n).places, us)
    requires intervals == SenderIntervals(env, h(n).air, h(n).places, us, |us|)
    ensures forall t :: Retained(env, h(n).air, h(n).places, us, |us|, t) <= Peak(intervals)
    ensures exists t :: Retained(env, h(n).air, h(n).places, us, |us|, t) == Peak(intervals)
  {
    SenderForward(env, h, n, us, |us|);
    PeakIsGreatestCover(intervals);
    forall t
      ensures Cover(intervals, t) == Retained(env, h(n).air, h(n).places, us, |us|, t)
    {
      CoverIsRetained(env, h(n).air, h(n).places, us, |us|, t);
    }
    var t :| Cover(intervals, t) == Peak(intervals);
    assert Retained(env, h(n).air, h(n).places, us, |us|, t) == Peak(intervals);
  }

  // ---- Quiescence ----

  /** The sender is quiet once the receiver has completed and the last stream chunk's acknowledgement is back. */
  lemma {:induction false} QuiescenceIsLast(env: Env, arrival: map<Unit, real>, places: Places, us: seq<Unit>, k: nat)
    requires k <= |us| && AllIn(us, arrival)
    ensures var quiet, done := Quiescence(env, arrival, places, us, k), Completion(env, arrival, places, us, |us|);
      && done <= quiet
      && (forall i :: 0 <= i < k && us[i] in places.of ==> arrival[us[i]] + env.link.rtt / 2.0 <= quiet)
      && (quiet == done || exists i :: 0 <= i < k && us[i] in places.of && quiet == arrival[us[i]] + env.link.rtt / 2.0)
  {
    if k > 0 {
      QuiescenceIsLast(env, arrival, places, us, k - 1);
    }
  }

  // ---- The candidates ----

  /** Where a run starts: sessions pay for their handshake, a cold one waits for it, datagrams start at once. */
  lemma StartsAfterSetup(env: Env)
    requires Sane(env)
    ensures var s := Start(env);
      var session := !env.candidate.UdpWholeMessage? && !env.candidate.UdpMissingOnly?;
      && (!session || env.session.Established? ==> s.cost.wire == 0 && s.free == 0.0)
      && (session && env.session.Resumed? ==> s.cost.wire == 1200 && s.free == (1200 * 8) as real / env.link.bandwidth)
      && (session && env.session.Cold? ==>
            s.cost.wire == 2400 && s.free == env.link.rtt + (2400 * 8) as real / env.link.bandwidth)
  {
  }

  /** At the exit exactly the chunks of ordered candidates hold positions: all of them, or the bulk of the hybrid. */
  lemma OrderedCandidates(env: Env, steps: nat, u: Unit)
    requires Reachable(env) && Done(env, After(env, steps)) && HasUnit(env.messages, u)
    ensures u in After(env, steps).places.of
       <==> match env.candidate
            case UdpWholeMessage => false
            case UdpMissingOnly => false
            case SingleReliableStream => true
            case MultipleReliableStreams => true
            case HybridDatagramControl => env.messages[u.message].kind == Bulk
  {
    ExitLands(env, steps, After(env, steps));
  }

  /** So under the hybrid no control chunk ever waits for another one. */
  lemma HybridControlIsNeverBlocked(env: Env, steps: nat, s: State, u: Unit)
    requires Reachable(env) && s == After(env, steps) && Done(env, s) && env.candidate == HybridDatagramControl
    requires HasUnit(env.messages, u) && env.messages[u.message].kind == Control
    ensures u in s.air.arrival && Delivered(env, s.air.arrival, s.places, u) == s.air.arrival[u]
  {
    OrderedCandidates(env, steps, u);
    InvAlwaysHolds(env, steps);
    ExitMeansDelivered(env, s, u);
  }

  /** What a chunk costs in the end: its length on its transport times its attempts. */
  lemma BillIsLengthTimesAttempts(env: Env, u: Unit)
    requires HasUnit(env.messages, u)
    ensures var size := env.messages[u.message].chunks[u.chunk];
      var datagram := env.candidate.UdpWholeMessage? || env.candidate.UdpMissingOnly?
        || (env.candidate.HybridDatagramControl? && env.messages[u.message].kind == Control);
      Bill(env)(u) == (if datagram then size.udpWire else size.streamWire) * Limit(env, u)
  {
    PacketsMultiply(WireLen(env, u), Limit(env, u));
  }

  /** Only fragmented messages under missing-only recovery ever cause a report. */
  lemma OnlyFragmentsReport(env: Env, steps: nat, m: nat)
    requires Reachable(env) && m < |env.messages| && After(env, steps).queue.reports[m] > 0
    ensures env.candidate == UdpMissingOnly && |env.messages[m].chunks| > 1
  {
    ReportsGetThrough(env, steps, m);
  }

  /** A report is an acknowledgement, a chunk count and a bitmap with a bit for every chunk and no spare byte. */
  lemma ReportHasABitPerChunk(env: Env, n: nat, bitmap: int)
    requires bitmap == NackLen(env, n) - AckLen(env) - 4
    ensures bitmap * 8 - 8 < n <= bitmap * 8
  {
  }

  /** Transmissions of the acknowledgements of the first `k` messages: of the fragmented ones under missing-only recovery. */
  ghost function AckPackets(env: Env, k: nat): nat
    requires k <= |env.messages|
  {
    if k == 0 then 0
    else if env.candidate == UdpMissingOnly && |env.messages[k - 1].chunks| > 1 then AckPackets(env, k - 1) + AckAttempts(env, k - 1)
    else AckPackets(env, k - 1)
  }

  /** When the acknowledgement of message `m`, complete at `at`, is back. */
  ghost function AckBack(env: Env, m: nat, at: real): real
    requires Sane(env)
  {
    at + (AckAttempts(env, m) - 1) as real * env.link.rtt + (AckLen(env) * 8) as real / env.link.bandwidth + env.link.rtt / 2.0
  }

  lemma AckBackIsArrival(env: Env, m: nat, at: real)
    requires Sane(env)
    ensures ControlArrival(env, AckAttempts(env, m), AckLen(env), at) == AckBack(env, m, at)
  {
  }

  /** Acknowledgement bytes are their packets times their length. */
  lemma {:induction false} AcksAddUp(env: Env, completion: seq<real>, from: real, k: nat)
    requires Sane(env) && k <= |env.messages| == |completion|
    ensures var r := AckTally(env, completion, from, k);
      r.packets == AckPackets(env, k) && r.bytes == r.packets * AckLen(env)
  {
    if k > 0 {
      AcksAddUp(env, completion, from, k - 1);
      Distribute(AckPackets(env, k - 1), AckAttempts(env, k - 1), AckLen(env));
    }
  }

  lemma Distribute(a: nat, b: nat, c: nat)
    ensures (a + b) * c == a * c + b * c
  {
  }

  /** The sender is quiet once the receiver has completed and the last acknowledgement is back. */
  lemma {:induction false} QuietWithTheLastAck(env: Env, completion: seq<real>, from: real, k: nat)
    requires Sane(env) && k <= |env.messages| == |completion|
    ensures var quiet := AckTally(env, completion, from, k).quiescence;
      && from <= quiet
      && (forall m :: 0 <= m < k && Selective(env, m) ==> AckBack(env, m, completion[m]) <= quiet)
      && (quiet == from || exists m :: 0 <= m < k && Selective(env, m) && quiet == AckBack(env, m, completion[m]))
  {
    if k > 0 {
      QuietWithTheLastAck(env, completion, from, k - 1);
      AckBackIsArrival(env, k - 1, completion[k - 1]);
    }
  }
}
