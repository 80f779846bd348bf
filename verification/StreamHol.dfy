/**
 * Head-of-line blocking: what ordered delivery costs, and the two-run theorem that one stream per
 * message never costs more than one shared stream, while sending exactly the same packets.
 */
module StreamHol {
  import opened Arithmetic
  import opened Options
  import opened Runs
  import opened StreamModel
  import opened StreamInvariant
  import opened StreamSteps
  import opened StreamRun
  import opened StreamLockstep
  import opened StreamDelivery
  import opened SweepLine

  // ---- Exactly the sent stream chunks hold a position ----

  ghost predicate PlacesInv(env: Env, s: State) {
    && PlacesOk(env, s.places)
    && forall u :: u in s.places.of <==> HasUnit(env.messages, u) && !Datagram(env, u.message) && Tries(s.air, u) > 0
  }

  lemma TransmitKeepsPlaces(env: Env, s: State, u: Unit, retransmission: bool, t: State)
    requires Sane(env) && HasUnit(env.messages, u) && PlacesInv(env, s) && t == Transmit(env, s, u, retransmission)
    ensures PlacesInv(env, t)
  {
    AssignKeepsPlaces(env, s.places, u);
  }

  lemma SameAirKeepsPlaces(env: Env, s: State, t: State)
    requires PlacesInv(env, s) && t.air == s.air && t.places == s.places
    ensures PlacesInv(env, t)
  {
  }

  lemma SendFreshKeepsPlaces(env: Env, s: State, m: nat, t: State)
    requires Sane(env) && Shaped(env, s) && m < |env.messages| && s.queue.next[m] < Chunks(env, m)
    requires PlacesInv(env, s) && t == SendFresh(env, s, m)
    ensures PlacesInv(env, t)
  {
    var u := Unit(m, s.queue.next[m]);
    TransmitKeepsPlaces(env, s, u, false, Transmit(env, s, u, false));
    SameAirKeepsPlaces(env, Transmit(env, s, u, false), t);
  }

  lemma ResendKeepsPlaces(env: Env, s: State, i: nat, t: State)
    requires Sane(env) && Shaped(env, s) && i < |s.queue.tasks| && HasUnit(env.messages, s.queue.tasks[i].unit)
    requires PlacesInv(env, s) && t == Resend(env, s, i)
    ensures PlacesInv(env, t)
  {
    var u := s.queue.tasks[i].unit;
    SameAirKeepsPlaces(env, s, Removed(s, i));
    TransmitKeepsPlaces(env, Removed(s, i), u, true, Transmit(env, Removed(s, i), u, true));
    SameAirKeepsPlaces(env, Transmit(env, Removed(s, i), u, true), t);
  }

  lemma ActKeepsPlaces(env: Env, s: State, choice: Choice, t: State)
    requires Sane(env) && Shaped(env, s) && Possible(env, s, choice) && PlacesInv(env, s) && t == Act(env, s, choice)
    ensures PlacesInv(env, t)
  {
    match choice
    case FreshMessage(m) =>
      SendFreshKeepsPlaces(env, s, m, t);
    case FreshFromCursor(m) =>
      var turned := s.(queue := s.queue.(cursor := (m + 1) % |env.messages|));
      SameAirKeepsPlaces(env, s, turned);
      SendFreshKeepsPlaces(env, turned, m, t);
    case Retry(i) =>
      ResendKeepsPlaces(env, s, i, t);
    case Idle =>
      SameAirKeepsPlaces(env, s, t);
  }

  lemma PlacesAlwaysHold(env: Env, steps: nat)
    requires Sane(env)
    ensures PlacesInv(env, After(env, steps))
  {
    var inv := (i: nat, s: State) => Shaped(env, s) && PlacesInv(env, s);
    forall i: nat, s: State | inv(i, s)
      ensures inv(i + 1, Loop(env)(i, s))
    {
      ActKeepsPlaces(env, s, Choose(env, s), Step(env, s));
    }
    RunKeeps(Loop(env), inv, Start(env), steps);
  }

  // ---- Positions are handed out in the order of first sends ----

  ghost predicate SentInOrder(s: State, u: Unit, v: Unit)
    requires u in s.places.of && v in s.places.of
  {
    s.places.of[u].stream == s.places.of[v].stream && s.places.of[u].position < s.places.of[v].position ==>
      u in s.air.firstSend && v in s.air.firstSend && s.air.firstSend[u] <= s.air.firstSend[v]
  }

  ghost predicate OrderInv(s: State) {
    && (forall u :: u in s.air.firstSend <==> Tries(s.air, u) > 0)
    && (forall u :: u in s.air.firstSend ==> s.air.firstSend[u] <= s.free)
    && (forall u, v :: u in s.places.of && v in s.places.of ==> SentInOrder(s, u, v))
  }

  lemma NewestIsLast(env: Env, s: State, u: Unit, t: State, v: Unit)
    requires Sane(env) && PlacesInv(env, s) && OrderInv(s) && HasUnit(env.messages, u) && u !in s.places.of
    requires t == Transmit(env, s, u, false) || t == Transmit(env, s, u, true)
    requires u in t.places.of && v in t.places.of
    ensures SentInOrder(t, u, v) && SentInOrder(t, v, u)
  {
    if v != u {
      assert PlaceOk(env, s.places, v);
    }
  }

  lemma TransmitKeepsOrder(env: Env, s: State, u: Unit, retransmission: bool, t: State)
    requires Sane(env) && PlacesInv(env, s) && OrderInv(s) && HasUnit(env.messages, u) && t == Transmit(env, s, u, retransmission)
    ensures OrderInv(t)
  {
    assert (WireLen(env, u) * 8) as real / env.link.bandwidth >= 0.0;
    forall v, w | v in t.places.of && w in t.places.of
      ensures SentInOrder(t, v, w)
    {
      if v in s.places.of && w in s.places.of {
        assert SentInOrder(s, v, w);
      } else if v == u {
        NewestIsLast(env, s, u, t, w);
      } else {
        NewestIsLast(env, s, u, t, v);
      }
    }
  }

  lemma SameAirKeepsOrder(s: State, t: State)
    requires OrderInv(s) && t.air == s.air && t.places == s.places && s.free <= t.free
    ensures OrderInv(t)
  {
    forall u, v | u in t.places.of && v in t.places.of
      ensures SentInOrder(t, u, v)
    {
      assert SentInOrder(s, u, v);
    }
  }

  lemma SendFreshKeepsOrder(env: Env, s: State, m: nat, t: State)
    requires Sane(env) && Shaped(env, s) && m < |env.messages| && s.queue.next[m] < Chunks(env, m)
    requires PlacesInv(env, s) && OrderInv(s) && t == SendFresh(env, s, m)
    ensures OrderInv(t)
  {
    var u := Unit(m, s.queue.next[m]);
    TransmitKeepsOrder(env, s, u, false, Transmit(env, s, u, false));
    SameAirKeepsOrder(Transmit(env, s, u, false), t);
  }

  lemma ResendKeepsOrder(env: Env, s: State, i: nat, t: State)
    requires Sane(env) && Shaped(env, s) && i < |s.queue.tasks| && HasUnit(env.messages, s.queue.tasks[i].unit)
    requires PlacesInv(env, s) && OrderInv(s) && t == Resend(env, s, i)
    ensures OrderInv(t)
  {
    var u := s.queue.tasks[i].unit;
    SameAirKeepsPlaces(env, s, Removed(s, i));
    SameAirKeepsOrder(s, Removed(s, i));
    TransmitKeepsOrder(env, Removed(s, i), u, true, Transmit(env, Removed(s, i), u, true));
    SameAirKeepsOrder(Transmit(env, Removed(s, i), u, true), t);
  }

  lemma ActKeepsOrder(env: Env, s: State, choice: Choice, t: State)
    requires Sane(env) && Shaped(env, s) && Possible(env, s, choice) && PlacesInv(env, s) && OrderInv(s) && t == Act(env, s, choice)
    ensures OrderInv(t)
  {
    match choice
    case FreshMessage(m) =>
      SendFreshKeepsOrder(env, s, m, t);
    case FreshFromCursor(m) =>
      var turned := s.(queue := s.queue.(cursor := (m + 1) % |env.messages|));
      SameAirKeepsPlaces(env, s, turned);
      SameAirKeepsOrder(s, turned);
      SendFreshKeepsOrder(env, turned, m, t);
    case Retry(i) =>
      ResendKeepsOrder(env, s, i, t);
    case Idle =>
      SameAirKeepsOrder(s, t);
  }

  /** After every iteration a stream's positions follow the order in which its chunks were first sent. */
  lemma PositionsFollowFirstSends(env: Env, steps: nat)
    requires Sane(env)
    ensures OrderInv(After(env, steps))
  {
    var inv := (i: nat, s: State) => Shaped(env, s) && PlacesInv(env, s) && OrderInv(s);
    forall i: nat, s: State | inv(i, s)
      ensures inv(i + 1, Loop(env)(i, s))
    {
      ActKeepsPlaces(env, s, Choose(env, s), Step(env, s));
      ActKeepsOrder(env, s, Choose(env, s), Step(env, s));
    }
    RunKeeps(Loop(env), inv, Start(env), steps);
  }

  ghost predicate Taken(places: Places, id: nat, p: nat) {
    exists u :: u in places.of && places.of[u] == Place(id, p)
  }

  /** Every position a stream has handed out is held by some chunk. */
  ghost predicate Dense(places: Places) {
    forall id, p :: 0 <= id < |places.nextPosition| && 0 <= p < places.nextPosition[id] ==> Taken(places, id, p)
  }

  lemma AssignKeepsDense(places: Places, u: Unit, stream: Option<nat>, r: Places)
    requires Dense(places) && r == Assign(places, u, stream)
    ensures Dense(r)
  {
    forall id, p | 0 <= id < |r.nextPosition| && 0 <= p < r.nextPosition[id]
      ensures Taken(r, id, p)
    {
      if p < places.nextPosition[id] {
        assert Taken(places, id, p);
        var v :| v in places.of && places.of[v] == Place(id, p);
        assert v in r.of && r.of[v] == Place(id, p);
      } else {
        assert u in r.of && r.of[u] == Place(id, p);
      }
    }
  }

  lemma ActKeepsDense(env: Env, s: State, choice: Choice, t: State)
    requires Sane(env) && Shaped(env, s) && Possible(env, s, choice) && Dense(s.places) && t == Act(env, s, choice)
    ensures Dense(t.places)
  {
    if !choice.Idle? {
      var u := if choice.Retry? then s.queue.tasks[choice.i].unit else Unit(choice.m, s.queue.next[choice.m]);
      assert t.places == Assign(s.places, u, StreamOf(env, u.message));
      AssignKeepsDense(s.places, u, StreamOf(env, u.message), t.places);
    }
  }

  /** After every iteration the positions of a stream are numbered without gaps. */
  lemma PositionsHaveNoGaps(env: Env, steps: nat)
    requires Sane(env)
    ensures Dense(After(env, steps).places)
  {
    var inv := (i: nat, s: State) => Shaped(env, s) && Dense(s.places);
    forall i: nat, s: State | inv(i, s)
      ensures inv(i + 1, Loop(env)(i, s))
    {
      ActKeepsDense(env, s, Choose(env, s), Step(env, s));
    }
    RunKeeps(Loop(env), inv, Start(env), steps);
  }

  /** At the exit every delivery time is defined: no chunk lacks an arrival or a stream position. */
  lemma ExitLands(env: Env, steps: nat, s: State)
    requires Reachable(env) && s == After(env, steps) && Done(env, s)
    ensures Landed(env, s.air.arrival, s.places)
  {
    PlacesAlwaysHold(env, steps);
    InvAlwaysHolds(env, steps);
    forall u | HasUnit(env.messages, u)
      ensures u in s.air.arrival && Tries(s.air, u) > 0
    {
      ExitMeansDelivered(env, s, u);
      assert MessageOk(env, s, u.message);
      assert UnitOk(env, s, Unit(u.message, u.chunk));
    }
    forall i | 0 <= i < |AllUnits(env)|
      ensures AllUnits(env)[i] in s.air.arrival
    {
      AllUnitsHas(env, AllUnits(env)[i]);
    }
  }

  // ---- Metrics ----

  /** How long `u` waits between arrival and delivery. */
  function Hol(env: Env, arrival: map<Unit, real>, places: Places, u: Unit): real
    requires u in arrival
  {
    MaxReal(Delivered(env, arrival, places, u) - arrival[u], 0.0)
  }

  /** The wait that counts: only chunks of a stream are held back. */
  function Wait(env: Env, arrival: map<Unit, real>, places: Places, u: Unit): real
    requires u in arrival
  {
    if u in places.of then Hol(env, arrival, places, u) else 0.0
  }

  function TotalHol(env: Env, arrival: map<Unit, real>, places: Places, us: seq<Unit>, k: nat): real
    requires k <= |us| && AllIn(us, arrival)
  {
    if k == 0 then 0.0 else TotalHol(env, arrival, places, us, k - 1) + Wait(env, arrival, places, us[k - 1])
  }

  function MaxHol(env: Env, arrival: map<Unit, real>, places: Places, us: seq<Unit>, k: nat): real
    requires k <= |us| && AllIn(us, arrival)
  {
    if k == 0 then 0.0 else MaxReal(MaxHol(env, arrival, places, us, k - 1), Wait(env, arrival, places, us[k - 1]))
  }

  function Useful(env: Env, u: Unit): nat {
    if HasUnit(env.messages, u) then env.messages[u.message].chunks[u.chunk].useful else 0
  }

  function HolInterval(env: Env, arrival: map<Unit, real>, places: Places, u: Unit): Interval
    requires u in arrival
  {
    Interval(arrival[u], Delivered(env, arrival, places, u), Useful(env, u))
  }

  /** A blocked chunk occupies the receiver's buffer from its arrival to its delivery. */
  function HolIntervals(env: Env, arrival: map<Unit, real>, places: Places, us: seq<Unit>, k: nat): seq<Interval>
    requires k <= |us| && AllIn(us, arrival)
  {
    if k == 0 then []
    else if Wait(env, arrival, places, us[k - 1]) > 0.0 then
      HolIntervals(env, arrival, places, us, k - 1) + [HolInterval(env, arrival, places, us[k - 1])]
    else HolIntervals(env, arrival, places, us, k - 1)
  }

  function PeakHol(env: Env, arrival: map<Unit, real>, places: Places, us: seq<Unit>): nat
    requires AllIn(us, arrival)
  {
    Peak(HolIntervals(env, arrival, places, us, |us|))
  }

  lemma EventsSnoc(intervals: seq<Interval>, i: Interval)
    ensures Events(intervals + [i]) == Events(intervals) + [Event(i.start, i.weight), Event(i.end, 0 - i.weight)]
  {
    assert (intervals + [i])[..|intervals|] == intervals;
  }

  /** The start and end events of the blocked chunks, in the order the chunks are listed. */
  method HolEvents(env: Env, arrival: map<Unit, real>, places: Places, us: seq<Unit>) returns (events: seq<Event>)
    requires AllIn(us, arrival)
    ensures events == Events(HolIntervals(env, arrival, places, us, |us|))
  {
    events := [];
    for k := 0 to |us|
      invariant events == Events(HolIntervals(env, arrival, places, us, k))
    {
      if Wait(env, arrival, places, us[k]) > 0.0 {
        var i := HolInterval(env, arrival, places, us[k]);
        EventsSnoc(HolIntervals(env, arrival, places, us, k), i);
        events := events + [Event(i.start, i.weight), Event(i.end, 0 - i.weight)];
      }
    }
  }

  method HolMetrics(env: Env, arrival: map<Unit, real>, places: Places, us: seq<Unit>)
    returns (total: real, greatest: real, peak: nat)
    requires AllIn(us, arrival)
    ensures total == TotalHol(env, arrival, places, us, |us|) && greatest == MaxHol(env, arrival, places, us, |us|)
    ensures peak == PeakHol(env, arrival, places, us)
  {
    total, greatest := 0.0, 0.0;
    for k := 0 to |us|
      invariant total == TotalHol(env, arrival, places, us, k) && greatest == MaxHol(env, arrival, places, us, k)
    {
      var wait := Wait(env, arrival, places, us[k]);
      total, greatest := total + wait, MaxReal(greatest, wait);
    }
    var events := HolEvents(env, arrival, places, us);
    peak := PeakFromEvents(events);
  }

  /** When the last of the first `k` chunks is delivered. */
  function Completion(env: Env, arrival: map<Unit, real>, places: Places, us: seq<Unit>, k: nat): real
    requires k <= |us| && AllIn(us, arrival)
  {
    if k == 0 then 0.0
    else MaxReal(Completion(env, arrival, places, us, k - 1), Delivered(env, arrival, places, us[k - 1]))
  }

  /** The sender keeps a stream chunk until its acknowledgement is back. */
  function Quiescence(env: Env, arrival: map<Unit, real>, places: Places, us: seq<Unit>, k: nat): real
    requires k <= |us| && AllIn(us, arrival)
  {
    if k == 0 then Completion(env, arrival, places, us, |us|)
    else
      var before := Quiescence(env, arrival, places, us, k - 1);
      if us[k - 1] in places.of then MaxReal(before, arrival[us[k - 1]] + env.link.rtt / 2.0) else before
  }

  /** Every chunk that holds a stream position has a first-send time. */
  ghost predicate AllFirstSent(env: Env, air: Air, places: Places, us: seq<Unit>) {
    forall i :: 0 <= i < |us| && us[i] in places.of ==> HasUnit(env.messages, us[i]) && us[i] in air.firstSend
  }

  function SenderIntervals(env: Env, air: Air, places: Places, us: seq<Unit>, k: nat): seq<Interval>
    requires k <= |us| && AllIn(us, air.arrival) && AllFirstSent(env, air, places, us)
  {
    if k == 0 then []
    else
      var u, before := us[k - 1], SenderIntervals(env, air, places, us, k - 1);
      if u in places.of then
        before + [Interval(air.firstSend[u], air.arrival[u] + env.link.rtt / 2.0,
                           env.messages[u.message].chunks[u.chunk].streamWire)]
      else before
  }

  /** After every step of every run, whatever holds a stream position was sent: no first-send time is missing. */
  lemma PlacedMeansSent(env: Env, steps: nat, s: State, us: seq<Unit>)
    requires Reachable(env) && s == After(env, steps)
    ensures AllFirstSent(env, s.air, s.places, us)
  {
    PlacesAlwaysHold(env, steps);
    forall i | 0 <= i < |us| && us[i] in s.places.of
      ensures us[i] in s.air.firstSend
    {
      AttemptsStayBounded(env, steps, us[i]);
    }
  }

  // ---- One stream per message against one shared stream ----

  lemma {:induction false} FewerBeforeNoLater(arrival: map<Unit, real>, own: Places, shared: Places, us: seq<Unit>, u: Unit)
    requires forall v :: Precedes(own, v, u) ==> Precedes(shared, v, u)
    ensures Latest(arrival, own, us, u) <= Latest(arrival, shared, us, u)
  {
    LatestFacts(arrival, shared, us, u);
    if us != [] {
      var n := |us| - 1;
      FewerBeforeNoLater(arrival, own, shared, us[..n], u);
      LatestFacts(arrival, shared, us[..n], u);
    }
  }

  /** The same arrivals under both layouts of positions. */
  ghost predicate Split(single: Env, multi: Env, arrival: map<Unit, real>, shared: Places, own: Places) {
    && Paired(single, multi) && PlacesMatch(single, multi, shared, own)
    && Landed(single, arrival, shared) && Landed(multi, arrival, own)
  }

  /** What precedes a chunk in its own stream precedes it in the shared one. */
  lemma PrecedesInShared(single: Env, multi: Env, shared: Places, own: Places, v: Unit, u: Unit)
    requires Paired(single, multi) && PlacesMatch(single, multi, shared, own) && Precedes(own, v, u)
    ensures Precedes(shared, v, u)
  {
    assert PlaceOk(multi, own, u) && PlaceOk(multi, own, v);
    assert PlaceOk(single, shared, u) && PlaceOk(single, shared, v);
  }

  lemma DeliveredNoLater(single: Env, multi: Env, arrival: map<Unit, real>, shared: Places, own: Places, u: Unit)
    requires Paired(single, multi) && PlacesMatch(single, multi, shared, own) && u in arrival
    ensures Delivered(multi, arrival, own, u) <= Delivered(single, arrival, shared, u)
  {
    forall v | Precedes(own, v, u)
      ensures Precedes(shared, v, u)
    {
      PrecedesInShared(single, multi, shared, own, v, u);
    }
    FewerBeforeNoLater(arrival, own, shared, AllUnits(single), u);
  }

  /** Chunk by chunk: delivered no later, and held back by a stream in both layouts or in neither. */
  ghost predicate NoLater(single: Env, multi: Env, arrival: map<Unit, real>, shared: Places, own: Places, us: seq<Unit>) {
    && AllIn(us, arrival) && single.messages == multi.messages
    && forall i :: 0 <= i < |us| ==>
      (us[i] in own.of <==> us[i] in shared.of)
      && Delivered(multi, arrival, own, us[i]) <= Delivered(single, arrival, shared, us[i])
  }

  lemma SplitIsNoLater(single: Env, multi: Env, arrival: map<Unit, real>, shared: Places, own: Places, us: seq<Unit>)
    requires Split(single, multi, arrival, shared, own)
    requires forall i :: 0 <= i < |us| ==> HasUnit(single.messages, us[i]) && us[i] in arrival
    ensures NoLater(single, multi, arrival, shared, own, us)
  {
    forall i | 0 <= i < |us|
      ensures (us[i] in own.of <==> us[i] in shared.of)
        && Delivered(multi, arrival, own, us[i]) <= Delivered(single, arrival, shared, us[i])
    {
      DeliveredNoLater(single, multi, arrival, shared, own, us[i]);
    }
  }

  lemma {:induction false} CompletionNoLater(single: Env, multi: Env, arrival: map<Unit, real>, shared: Places, own: Places,
                                             us: seq<Unit>, k: nat)
    requires NoLater(single, multi, arrival, shared, own, us) && k <= |us|
    ensures Completion(multi, arrival, own, us, k) <= Completion(single, arrival, shared, us, k)
  {
    if k > 0 {
      CompletionNoLater(single, multi, arrival, shared, own, us, k - 1);
    }
  }

  lemma {:induction false} HolNoLarger(single: Env, multi: Env, arrival: map<Unit, real>, shared: Places, own: Places,
                                       us: seq<Unit>, k: nat)
    requires NoLater(single, multi, arrival, shared, own, us) && k <= |us|
    ensures TotalHol(multi, arrival, own, us, k) <= TotalHol(single, arrival, shared, us, k)
    ensures MaxHol(multi, arrival, own, us, k) <= MaxHol(single, arrival, shared, us, k)
  {
    if k > 0 {
      HolNoLarger(single, multi, arrival, shared, own, us, k - 1);
    }
  }

  lemma CoverSnoc(intervals: seq<Interval>, i: Interval, t: real)
    ensures Cover(intervals + [i], t) == Cover(intervals, t) + if Covers(i, t) then i.weight else 0
  {
    assert (intervals + [i])[..|intervals|] == intervals;
  }

  lemma {:induction false} HolForward(env: Env, arrival: map<Unit, real>, places: Places, us: seq<Unit>, k: nat)
    requires k <= |us| && AllIn(us, arrival)
    ensures Forward(HolIntervals(env, arrival, places, us, k))
  {
    if k > 0 {
      HolForward(env, arrival, places, us, k - 1);
    }
  }

  /** What chunk `u` occupies at instant `t`. */
  function Occupies(env: Env, arrival: map<Unit, real>, places: Places, u: Unit, t: real): nat
    requires u in arrival
  {
    if Wait(env, arrival, places, u) > 0.0 && Covers(HolInterval(env, arrival, places, u), t) then Useful(env, u) else 0
  }

  lemma CoverNext(env: Env, arrival: map<Unit, real>, places: Places, us: seq<Unit>, k: nat, t: real)
    requires 0 < k <= |us| && AllIn(us, arrival)
    ensures Cover(HolIntervals(env, arrival, places, us, k), t)
         == Cover(HolIntervals(env, arrival, places, us, k - 1), t) + Occupies(env, arrival, places, us[k - 1], t)
  {
    CoverSnoc(HolIntervals(env, arrival, places, us, k - 1), HolInterval(env, arrival, places, us[k - 1]), t);
  }

  lemma {:induction false} HolCoversNoMore(single: Env, multi: Env, arrival: map<Unit, real>, shared: Places, own: Places,
                                           us: seq<Unit>, k: nat, t: real)
    requires NoLater(single, multi, arrival, shared, own, us) && k <= |us|
    ensures Cover(HolIntervals(multi, arrival, own, us, k), t) <= Cover(HolIntervals(single, arrival, shared, us, k), t)
  {
    if k > 0 {
      HolCoversNoMore(single, multi, arrival, shared, own, us, k - 1, t);
      CoverNext(single, arrival, shared, us, k, t);
      CoverNext(multi, arrival, own, us, k, t);
    }
  }

  /** The buffer behind blocked chunks peaks no higher. */
  lemma PeakHolNoLarger(single: Env, multi: Env, arrival: map<Unit, real>, shared: Places, own: Places, us: seq<Unit>)
    requires NoLater(single, multi, arrival, shared, own, us)
    ensures PeakHol(multi, arrival, own, us) <= PeakHol(single, arrival, shared, us)
  {
    var a, b := HolIntervals(multi, arrival, own, us, |us|), HolIntervals(single, arrival, shared, us, |us|);
    HolForward(multi, arrival, own, us, |us|);
    HolForward(single, arrival, shared, us, |us|);
    forall t
      ensures Cover(a, t) <= Cover(b, t)
    {
      HolCoversNoMore(single, multi, arrival, shared, own, us, |us|, t);
    }
    PeakIsMonotone(a, b);
  }

  // ---- What does not change ----

  lemma DeliveredWithin(env: Env, arrival: map<Unit, real>, places: Places, u: Unit)
    requires Landed(env, arrival, places) && HasUnit(env.messages, u) && u in arrival
    ensures arrival[u] <= Delivered(env, arrival, places, u) <= Running(arrival, AllUnits(env), |AllUnits(env)|)
  {
    var us := AllUnits(env);
    AllUnitsHas(env, u);
    LatestFacts(arrival, places, us, u);
    RunningFacts(arrival, us, |us|);
    if u in places.of {
      assert Precedes(places, u, u);
    } else {
      var i :| 0 <= i < |us| && us[i] == u;
    }
  }

  lemma {:induction false} CompletionBetween(env: Env, arrival: map<Unit, real>, places: Places, us: seq<Unit>, k: nat)
    requires Landed(env, arrival, places) && us == AllUnits(env) && k <= |us|
    ensures Running(arrival, us, k) <= Completion(env, arrival, places, us, k) <= Running(arrival, us, |us|)
  {
    RunningFacts(arrival, us, |us|);
    if k > 0 {
      CompletionBetween(env, arrival, places, us, k - 1);
      AllUnitsHas(env, us[k - 1]);
      DeliveredWithin(env, arrival, places, us[k - 1]);
    }
  }

  /** However positions are laid out, the receiver completes with the last arrival. */
  lemma CompletionIsLastArrival(env: Env, arrival: map<Unit, real>, places: Places, us: seq<Unit>)
    requires Landed(env, arrival, places) && us == AllUnits(env)
    ensures Completion(env, arrival, places, us, |us|) == Running(arrival, us, |us|)
  {
    CompletionBetween(env, arrival, places, us, |us|);
  }

  lemma {:induction false} SenderSeesNoDifference(single: Env, multi: Env, air: Air, shared: Places, own: Places,
                                                  us: seq<Unit>, k: nat)
    requires NoLater(single, multi, air.arrival, shared, own, us) && k <= |us| && single.link == multi.link
    requires AllFirstSent(single, air, shared, us) && AllFirstSent(multi, air, own, us)
    requires Completion(single, air.arrival, shared, us, |us|) == Completion(multi, air.arrival, own, us, |us|)
    ensures Quiescence(single, air.arrival, shared, us, k) == Quiescence(multi, air.arrival, own, us, k)
    ensures SenderIntervals(single, air, shared, us, k) == SenderIntervals(multi, air, own, us, k)
  {
    if k > 0 {
      SenderSeesNoDifference(single, multi, air, shared, own, us, k - 1);
    }
  }

  // ---- The two-run theorem ----

  ghost predicate SamePackets(s: State, t: State) {
    s.air == t.air && s.cost == t.cost && s.free == t.free
  }

  /** Finished runs over one shared stream and over one stream per message, step by step the same run. */
  ghost predicate FinishedPair(single: Env, multi: Env, steps: nat, s: State, t: State) {
    && Paired(single, multi) && Reachable(single)
    && s == After(single, steps) && t == After(multi, steps) && Done(single, s)
  }

  lemma FinishedPairIsSplit(single: Env, multi: Env, steps: nat, s: State, t: State)
    requires FinishedPair(single, multi, steps, s, t)
    ensures Done(multi, t) && SamePackets(s, t) && Split(single, multi, s.air.arrival, s.places, t.places)
  {
    RunsInLockstep(single, multi, steps);
    ExitLands(single, steps, s);
    PlacesAlwaysHold(multi, steps);
    PlacesAlwaysHold(single, steps);
  }

  /**
   * The packets, their times and their cost are the same; every chunk is delivered and every set of
   * chunks completed no later with one stream per message, and head-of-line delay and buffering are
   * no larger.
   */
  lemma MultipleStreamsNeverWorse(single: Env, multi: Env, steps: nat, s: State, t: State, us: seq<Unit>)
    requires FinishedPair(single, multi, steps, s, t)
    requires forall i :: 0 <= i < |us| ==> HasUnit(single.messages, us[i])
    ensures Done(multi, t) && SamePackets(s, t)
    ensures NoLater(single, multi, s.air.arrival, s.places, t.places, us)
    ensures Completion(multi, t.air.arrival, t.places, us, |us|) <= Completion(single, s.air.arrival, s.places, us, |us|)
    ensures TotalHol(multi, t.air.arrival, t.places, us, |us|) <= TotalHol(single, s.air.arrival, s.places, us, |us|)
    ensures MaxHol(multi, t.air.arrival, t.places, us, |us|) <= MaxHol(single, s.air.arrival, s.places, us, |us|)
    ensures PeakHol(multi, t.air.arrival, t.places, us) <= PeakHol(single, s.air.arrival, s.places, us)
  {
    var arrival := s.air.arrival;
    FinishedPairIsSplit(single, multi, steps, s, t);
    forall i | 0 <= i < |us|
      ensures us[i] in arrival
    {
      InvAlwaysHolds(single, steps);
      ExitMeansDelivered(single, s, us[i]);
    }
    SplitIsNoLater(single, multi, arrival, s.places, t.places, us);
    CompletionNoLater(single, multi, arrival, s.places, t.places, us, |us|);
    HolNoLarger(single, multi, arrival, s.places, t.places, us, |us|);
    PeakHolNoLarger(single, multi, arrival, s.places, t.places, us);
  }

  /** Receiver completion, sender quiescence and the sender's peak state are exactly the same. */
  lemma EndpointsSeeNoDifference(single: Env, multi: Env, steps: nat, s: State, t: State, us: seq<Unit>)
    requires FinishedPair(single, multi, steps, s, t) && us == AllUnits(single)
    ensures AllIn(us, s.air.arrival) && AllIn(us, t.air.arrival)
    ensures AllFirstSent(single, s.air, s.places, us) && AllFirstSent(multi, t.air, t.places, us)
    ensures Completion(multi, t.air.arrival, t.places, us, |us|) == Completion(single, s.air.arrival, s.places, us, |us|)
    ensures Quiescence(multi, t.air.arrival, t.places, us, |us|) == Quiescence(single, s.air.arrival, s.places, us, |us|)
    ensures Peak(SenderIntervals(multi, t.air, t.places, us, |us|)) == Peak(SenderIntervals(single, s.air, s.places, us, |us|))
  {
    FinishedPairIsSplit(single, multi, steps, s, t);
    forall i | 0 <= i < |us|
      ensures HasUnit(single.messages, us[i])
    {
      AllUnitsHas(single, us[i]);
    }
    SplitIsNoLater(single, multi, s.air.arrival, s.places, t.places, us);
    CompletionIsLastArrival(single, s.air.arrival, s.places, us);
    CompletionIsLastArrival(multi, s.air.arrival, t.places, us);
    PlacedMeansSent(single, steps, s, us);
    assert AllFirstSent(multi, t.air, t.places, us);
    SenderSeesNoDifference(single, multi, s.air, s.places, t.places, us, |us|);
  }
}
