/**
 * Ordered delivery: a stream chunk is delivered once everything before it in its stream has arrived,
 * which is the running maximum of the arrivals of the stream's segments in position order.
 */
module StreamDelivery {
  import opened Arithmetic
  import opened Sorting
  import opened StreamModel
  import opened StreamLockstep

  // ---- All chunks, in order ----

  function Row(m: nat, k: nat): seq<Unit> {
    if k == 0 then [] else Row(m, k - 1) + [Unit(m, k - 1)]
  }

  function Units(messages: seq<Message>, k: nat): seq<Unit>
    requires k <= |messages|
  {
    if k == 0 then [] else Units(messages, k - 1) + Row(k - 1, |messages[k - 1].chunks|)
  }

  lemma {:induction false} RowHas(m: nat, k: nat, u: Unit)
    ensures u in Row(m, k) <==> u.message == m && u.chunk < k
  {
    if k > 0 {
      RowHas(m, k - 1, u);
    }
  }

  lemma {:induction false} UnitsHas(messages: seq<Message>, k: nat, u: Unit)
    requires k <= |messages|
    ensures u in Units(messages, k) <==> HasUnit(messages, u) && u.message < k
  {
    if k > 0 {
      UnitsHas(messages, k - 1, u);
      RowHas(k - 1, |messages[k - 1].chunks|, u);
    }
  }

  // ---- Delivery times ----

  /** `v` is in the stream of `u` and not after it. */
  predicate Precedes(places: Places, v: Unit, u: Unit) {
    && v in places.of && u in places.of
    && places.of[v].stream == places.of[u].stream && places.of[v].position <= places.of[u].position
  }

  /** The last arrival among the units of `us` that precede `u`, and at least zero. */
  function Latest(arrival: map<Unit, real>, places: Places, us: seq<Unit>, u: Unit): real {
    if us == [] then 0.0
    else
      var n := |us| - 1;
      MaxReal(Latest(arrival, places, us[..n], u),
              if Precedes(places, us[n], u) && us[n] in arrival then arrival[us[n]] else 0.0)
  }

  lemma {:induction false} LatestFacts(arrival: map<Unit, real>, places: Places, us: seq<Unit>, u: Unit)
    ensures Latest(arrival, places, us, u) >= 0.0
    ensures forall v :: v in us && Precedes(places, v, u) && v in arrival ==> arrival[v] <= Latest(arrival, places, us, u)
    ensures Latest(arrival, places, us, u) > 0.0 ==>
      exists v :: v in us && Precedes(places, v, u) && v in arrival && arrival[v] == Latest(arrival, places, us, u)
  {
    if us != [] {
      var n := |us| - 1;
      LatestFacts(arrival, places, us[..n], u);
      assert us == us[..n] + [us[n]];
    }
  }

  /** The units of a stream, in workload order. */
  function InStream(places: Places, us: seq<Unit>, stream: nat): seq<Unit> {
    if us == [] then []
    else
      var n := |us| - 1;
      if us[n] in places.of && places.of[us[n]].stream == stream then InStream(places, us[..n], stream) + [us[n]]
      else InStream(places, us[..n], stream)
  }

  predicate Placed(places: Places, us: seq<Unit>) {
    forall i :: 0 <= i < |us| ==> us[i] in places.of
  }

  function PositionOf(places: Places, u: Unit): nat {
    if u in places.of then places.of[u].position else 0
  }

  function ByPosition(places: Places): (Unit, Unit) -> bool {
    (u, v) => PositionOf(places, u) <= PositionOf(places, v)
  }

  /** Segments sorted by position are a permutation in order, each still with a position. */
  lemma SortKeeps(places: Places, us: seq<Unit>)
    requires Placed(places, us)
    ensures var r := Sort(us, ByPosition(places));
      multiset(r) == multiset(us) && Placed(places, r)
      && forall i, j :: 0 <= i < j < |r| ==> places.of[r[i]].position <= places.of[r[j]].position
  {
    var r := Sort(us, ByPosition(places));
    assert Orders(ByPosition(places));
    SortSorts(us, ByPosition(places));
    forall i | 0 <= i < |r|
      ensures r[i] in places.of
    {
      assert r[i] in multiset(r);
    }
    forall i, j | 0 <= i < j < |r|
      ensures places.of[r[i]].position <= places.of[r[j]].position
    {
      assert ByPosition(places)(r[i], r[j]);
    }
  }

  predicate InOrder(places: Places, us: seq<Unit>)
    requires Placed(places, us)
  {
    forall i, j :: 0 <= i < j < |us| ==> places.of[us[i]].position <= places.of[us[j]].position
  }

  lemma {:induction false} InStreamHas(places: Places, us: seq<Unit>, stream: nat, u: Unit)
    ensures Placed(places, InStream(places, us, stream))
    ensures u in InStream(places, us, stream) <==> u in us && u in places.of && places.of[u].stream == stream
  {
    if us != [] {
      var n := |us| - 1;
      InStreamHas(places, us[..n], stream, u);
      assert us == us[..n] + [us[n]];
    }
  }

  /** The segments of a stream as the receiver works through them. */
  function Segments(places: Places, us: seq<Unit>, stream: nat): (r: seq<Unit>)
    ensures Placed(places, r)
  {
    if us == [] then []
    else
      InStreamHas(places, us, stream, us[0]);
      SortKeeps(places, InStream(places, us, stream));
      Sort(InStream(places, us, stream), ByPosition(places))
  }

  lemma SegmentsHas(places: Places, us: seq<Unit>, stream: nat, u: Unit)
    ensures InOrder(places, Segments(places, us, stream))
    ensures u in Segments(places, us, stream) <==> u in us && u in places.of && places.of[u].stream == stream
  {
    InStreamHas(places, us, stream, u);
    if us != [] {
      SortKeeps(places, InStream(places, us, stream));
      assert u in multiset(Segments(places, us, stream)) <==> u in multiset(InStream(places, us, stream));
    }
  }

  predicate AllIn(us: seq<Unit>, arrival: map<Unit, real>) {
    forall i :: 0 <= i < |us| ==> us[i] in arrival
  }

  /** The running maximum of the first `k` arrivals. */
  function Running(arrival: map<Unit, real>, us: seq<Unit>, k: nat): real
    requires k <= |us| && AllIn(us, arrival)
  {
    if k == 0 then 0.0 else MaxReal(Running(arrival, us, k - 1), arrival[us[k - 1]])
  }

  lemma {:induction false} RunningFacts(arrival: map<Unit, real>, us: seq<Unit>, k: nat)
    requires k <= |us| && AllIn(us, arrival)
    ensures Running(arrival, us, k) >= 0.0
    ensures forall i :: 0 <= i < k ==> arrival[us[i]] <= Running(arrival, us, k)
    ensures Running(arrival, us, k) > 0.0 ==> exists i :: 0 <= i < k && arrival[us[i]] == Running(arrival, us, k)
  {
    if k > 0 {
      RunningFacts(arrival, us, k - 1);
    }
  }

  ghost predicate Unique(places: Places) {
    forall u, v :: u in places.of && v in places.of && places.of[u] == places.of[v] ==> u == v
  }

  lemma RunningAtMostLatest(arrival: map<Unit, real>, places: Places, us: seq<Unit>, stream: nat, k: nat)
    requires k < |Segments(places, us, stream)| && AllIn(us, arrival) && AllIn(Segments(places, us, stream), arrival)
    ensures var seg := Segments(places, us, stream);
      Running(arrival, seg, k + 1) <= Latest(arrival, places, us, seg[k])
  {
    var seg := Segments(places, us, stream);
    RunningFacts(arrival, seg, k + 1);
    LatestFacts(arrival, places, us, seg[k]);
    if Running(arrival, seg, k + 1) > 0.0 {
      var i :| 0 <= i < k + 1 && arrival[seg[i]] == Running(arrival, seg, k + 1);
      SegmentsHas(places, us, stream, seg[i]);
      SegmentsHas(places, us, stream, seg[k]);
      assert Precedes(places, seg[i], seg[k]);
    }
  }

  lemma LatestAtMostRunning(arrival: map<Unit, real>, places: Places, us: seq<Unit>, stream: nat, k: nat)
    requires k < |Segments(places, us, stream)| && AllIn(us, arrival) && AllIn(Segments(places, us, stream), arrival)
    requires Unique(places)
    ensures var seg := Segments(places, us, stream);
      Latest(arrival, places, us, seg[k]) <= Running(arrival, seg, k + 1)
  {
    var seg := Segments(places, us, stream);
    RunningFacts(arrival, seg, k + 1);
    LatestFacts(arrival, places, us, seg[k]);
    if Latest(arrival, places, us, seg[k]) > 0.0 {
      var v :| v in us && Precedes(places, v, seg[k]) && v in arrival && arrival[v] == Latest(arrival, places, us, seg[k]);
      SegmentsHas(places, us, stream, seg[k]);
      SegmentsHas(places, us, stream, v);
      var i :| 0 <= i < |seg| && seg[i] == v;
      if k < i {
        assert places.of[seg[k]].position <= places.of[seg[i]].position;
        assert places.of[v] == places.of[seg[k]];
      }
    }
  }

  /** The running maximum over a stream's segments is the latest preceding arrival. */
  lemma RunningIsLatest(arrival: map<Unit, real>, places: Places, us: seq<Unit>, stream: nat, seg: seq<Unit>, k: nat)
    requires AllIn(us, arrival) && Unique(places) && seg == Segments(places, us, stream) && k < |seg|
    ensures AllIn(seg, arrival) && Running(arrival, seg, k + 1) == Latest(arrival, places, us, seg[k])
  {
    SegmentsAllIn(arrival, places, us, stream);
    RunningAtMostLatest(arrival, places, us, stream, k);
    LatestAtMostRunning(arrival, places, us, stream, k);
  }

  lemma SegmentsAllIn(arrival: map<Unit, real>, places: Places, us: seq<Unit>, stream: nat)
    requires AllIn(us, arrival)
    ensures AllIn(Segments(places, us, stream), arrival)
    ensures forall i :: 0 <= i < |Segments(places, us, stream)| ==> places.of[Segments(places, us, stream)[i]].stream == stream
  {
    var seg := Segments(places, us, stream);
    forall i | 0 <= i < |seg|
      ensures seg[i] in arrival && places.of[seg[i]].stream == stream
    {
      SegmentsHas(places, us, stream, seg[i]);
    }
  }

  ghost predicate OnStream(places: Places, u: Unit, stream: nat) {
    u in places.of && places.of[u].stream == stream
  }

  /** The running maximum assigned to each segment in turn; everything else stays. */
  method DeliverInOrder(arrival: map<Unit, real>, seg: seq<Unit>, before: map<Unit, real>, ghost latest: Unit -> real)
    returns (delivery: map<Unit, real>)
    requires AllIn(seg, arrival) && forall k :: 0 <= k < |seg| ==> latest(seg[k]) == Running(arrival, seg, k + 1)
    ensures forall u :: u in seg ==> u in delivery && delivery[u] == latest(u)
    ensures forall u :: u in before && u !in seg ==> u in delivery && delivery[u] == before[u]
  {
    var prefix := 0.0;
    delivery := before;
    for k := 0 to |seg|
      invariant prefix == Running(arrival, seg, k)
      invariant forall i :: 0 <= i < k ==> seg[i] in delivery && delivery[seg[i]] == latest(seg[i])
      invariant forall u :: u in before && u !in seg ==> u in delivery && delivery[u] == before[u]
    {
      prefix := MaxReal(prefix, arrival[seg[k]]);
      delivery := delivery[seg[k] := prefix];
    }
  }

  /** Works through one stream's segments; deliveries on other streams stay. */
  method DeliverStream(arrival: map<Unit, real>, places: Places, us: seq<Unit>, stream: nat, before: map<Unit, real>)
    returns (delivery: map<Unit, real>)
    requires AllIn(us, arrival) && Unique(places)
    ensures forall u :: u in us && OnStream(places, u, stream) ==> u in delivery && delivery[u] == Latest(arrival, places, us, u)
    ensures forall u :: u in before && !OnStream(places, u, stream) ==> u in delivery && delivery[u] == before[u]
  {
    var seg := Segments(places, us, stream);
    SegmentsAllIn(arrival, places, us, stream);
    ghost var latest := (u: Unit) => Latest(arrival, places, us, u);
    forall k | 0 <= k < |seg|
      ensures latest(seg[k]) == Running(arrival, seg, k + 1)
    {
      RunningIsLatest(arrival, places, us, stream, seg, k);
    }
    delivery := DeliverInOrder(arrival, seg, before, latest);
    forall u | u in us && OnStream(places, u, stream)
      ensures u in seg
    {
      SegmentsHas(places, us, stream, u);
    }
  }

  function AllUnits(env: Env): seq<Unit> {
    Units(env.messages, |env.messages|)
  }

  lemma AllUnitsHas(env: Env, u: Unit)
    ensures u in AllUnits(env) <==> HasUnit(env.messages, u)
  {
    UnitsHas(env.messages, |env.messages|, u);
  }

  /** When `u` reaches the application: on arrival for a datagram, in stream order otherwise. */
  function Delivered(env: Env, arrival: map<Unit, real>, places: Places, u: Unit): real
    requires u in arrival
  {
    if u in places.of then Latest(arrival, places, AllUnits(env), u) else arrival[u]
  }

  /** Everything has arrived, and exactly the stream chunks hold a position. */
  ghost predicate Landed(env: Env, arrival: map<Unit, real>, places: Places) {
    && PlacesOk(env, places) && AllIn(AllUnits(env), arrival)
    && forall u :: u in places.of <==> HasUnit(env.messages, u) && !Datagram(env, u.message)
  }

  method DeliveryTimes(env: Env, arrival: map<Unit, real>, places: Places) returns (delivery: map<Unit, real>)
    requires Landed(env, arrival, places)
    ensures forall u :: HasUnit(env.messages, u) ==>
      u in arrival && u in delivery && delivery[u] == Delivered(env, arrival, places, u)
  {
    var us := AllUnits(env);
    forall u
      ensures u in us <==> HasUnit(env.messages, u)
    {
      AllUnitsHas(env, u);
    }
    delivery := map u | u in us :: if Datagram(env, u.message) then arrival[u] else 0.0;
    for stream := 0 to |env.messages| + 1
      invariant forall u :: u in us ==> u in delivery
      invariant forall u :: u in us && u !in places.of ==> delivery[u] == arrival[u]
      invariant forall u :: u in us && u in places.of && places.of[u].stream < stream ==>
        delivery[u] == Latest(arrival, places, us, u)
    {
      assert forall u :: u in places.of && places.of[u].stream == stream ==> OnStream(places, u, stream);
      delivery := DeliverStream(arrival, places, us, stream, delivery);
    }
    forall u | HasUnit(env.messages, u)
      ensures u in arrival && u in delivery && delivery[u] == Delivered(env, arrival, places, u)
    {
      if u in places.of {
        assert PlaceOk(env, places, u);
      }
    }
  }
}
