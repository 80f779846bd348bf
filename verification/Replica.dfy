/**
 * One replica: the dated map, its stamp-free projection, the live-tombstone index, the
 * acknowledgment table, membership and the clock. `Node` is the replica's state as a value, the
 * functions on it specify each operation, and class `Replica` runs the operations in place.
 */
module Replica {
  import opened Options
  import opened Lww
  import opened Clock

  type Peer = nat

  /** The version token of an entry: a digest that determines the entry it was taken from. */
  datatype Version<+V> = Digest(of: Entry<V>)

  type Ack<K, V> = (K, Version<V>)

  type AckTable<K, V> = map<K, map<Peer, Version<V>>>

  datatype Node<K, V> = Node(
    dated: Dated<K, V>,
    projection: map<K, State<V>>,
    live: set<K>,
    acks: AckTable<K, V>,
    members: set<Peer>,
    clock: Hlc,
    collisionReported: bool)

  /** The projection is the map with stamps erased; the index holds exactly the tombstone keys. */
  ghost predicate Agrees<K, V>(n: Node<K, V>) {
    && n.projection.Keys == n.dated.Keys
    && (forall k :: k in n.dated ==> n.projection[k] == n.dated[k].state)
    && n.live == set k | k in n.dated && n.dated[k].state.Tombstone?
  }

  // ---- The mutation sink and the writes that go through it ----

  function Put<K, V>(n: Node<K, V>, k: K, e: Entry<V>): (r: Node<K, V>)
    ensures Agrees(n) ==> Agrees(r)
  {
    n.(dated := n.dated[k := e],
       projection := n.projection[k := e.state],
       live := if e.state.Tombstone? then n.live + {k} else n.live - {k})
  }

  /** Equal stamps with different content: last-writer-wins cannot order the two entries. */
  predicate IsNodeIdCollision<V(==)>(local: Entry<V>, remote: Entry<V>) {
    local.stamp == remote.stamp && local.state != remote.state
  }

  function MergePut<K, V(==)>(n: Node<K, V>, u: Update<K, V>): (r: Node<K, V>)
    ensures Agrees(n) ==> Agrees(r)
    ensures r.dated == MergeInto(n.dated, u)
  {
    if u.0 in n.dated then
      var local := n.dated[u.0];
      Put(n, u.0, Merge(local, u.1))
        .(collisionReported := n.collisionReported || IsNodeIdCollision(local, u.1))
    else Put(n, u.0, u.1)
  }

  function MergePutAll<K, V(==)>(n: Node<K, V>, batch: seq<Update<K, V>>): (r: Node<K, V>)
    ensures Agrees(n) ==> Agrees(r)
    ensures r.dated == MergeAll(n.dated, batch)
    ensures r.acks == n.acks && r.members == n.members && r.clock == n.clock
  {
    if batch == [] then n
    else MergePut(MergePutAll(n, batch[..|batch| - 1]), batch[|batch| - 1])
  }

  /** The two orders of a merge differ exactly on a collision. */
  lemma MergeCommutesUnlessCollision<V>(a: Entry<V>, b: Entry<V>)
    ensures Merge(a, b) == Merge(b, a) <==> !IsNodeIdCollision(a, b)
  {
  }

  /** Update `i` of the batch collides with the entry held when its turn comes. */
  ghost predicate CollidesAt<K, V>(m: Dated<K, V>, batch: seq<Update<K, V>>, i: nat)
    requires i < |batch|
  {
    var r := MergeAll(m, batch[..i]);
    batch[i].0 in r && IsNodeIdCollision(r[batch[i].0], batch[i].1)
  }

  /** A batch raises the report exactly when one of its updates collides. */
  lemma {:induction false} ReportedIffCollides<K, V>(n: Node<K, V>, batch: seq<Update<K, V>>)
    ensures MergePutAll(n, batch).collisionReported
       <==> n.collisionReported || exists i :: 0 <= i < |batch| && CollidesAt(n.dated, batch, i)
  {
    if batch != [] {
      var k := |batch| - 1;
      var front := batch[..k];
      ReportedIffCollides(n, front);
      assert forall i :: 0 <= i < k ==> front[i] == batch[i] && front[..i] == batch[..i];
      assert forall i :: 0 <= i < k ==> (CollidesAt(n.dated, front, i) <==> CollidesAt(n.dated, batch, i));
      assert CollidesAt(n.dated, batch, k)
        <==> batch[k].0 in MergeAll(n.dated, front) && IsNodeIdCollision(MergeAll(n.dated, front)[batch[k].0], batch[k].1);
    }
  }

  function TombstoneAck<K, V>(m: Dated<K, V>, k: K): seq<Ack<K, V>> {
    if k in m && m[k].state.Tombstone? then [(k, Digest(m[k]))] else []
  }

  /** Acknowledgments of the tombstones that beat or equal a received update in the snapshot. */
  function ScreenAcks<K, V>(snapshot: Dated<K, V>, batch: seq<Update<K, V>>): seq<Ack<K, V>> {
    if batch == [] then []
    else
      var front, u := batch[..|batch| - 1], batch[|batch| - 1];
      ScreenAcks(snapshot, front) + if Passes(snapshot, u) then [] else TombstoneAck(snapshot, u.0)
  }

  /** Acknowledgments of the tombstones each merge under the lock leaves behind. */
  function MergeAcks<K, V>(m: Dated<K, V>, batch: seq<Update<K, V>>): seq<Ack<K, V>> {
    if batch == [] then []
    else MergeAcks(m, batch[..|batch| - 1]) + TombstoneAck(MergeAll(m, batch), batch[|batch| - 1].0)
  }

  function ObserveAll<K, V>(last: Hlc, batch: seq<Update<K, V>>, readings: seq<nat>, drift: nat): (r: Hlc)
    requires |batch| == |readings|
    ensures HlcAtMost(last, r)
    ensures forall i :: 0 <= i < |batch| && WithinBudget(readings[i], batch[i].1.stamp, drift) ==>
      HlcAtMost(batch[i].1.stamp.hlc, r)
  {
    if batch == [] then last
    else
      var n := |batch| - 1;
      var before := ObserveAll(last, batch[..n], readings[..n], drift);
      ObserveCatchesUp(before, readings[n], batch[n].1.stamp, drift);
      ObserveReading(before, readings[n], batch[n].1.stamp, drift)
  }

  // ---- Receipts and collection ----

  function RecordAck<K, V>(n: Node<K, V>, from: Peer, ack: Ack<K, V>): (r: Node<K, V>)
    ensures r == n.(acks := r.acks)
  {
    if ack.0 in n.dated && n.dated[ack.0].state.Tombstone? then
      var row := if ack.0 in n.acks then n.acks[ack.0] else map[];
      n.(acks := n.acks[ack.0 := row[from := ack.1]])
    else n
  }

  function RecordAcks<K, V>(n: Node<K, V>, from: Peer, acks: seq<Ack<K, V>>): (r: Node<K, V>)
    ensures r == n.(acks := r.acks)
  {
    if acks == [] then n
    else RecordAck(RecordAcks(n, from, acks[..|acks| - 1]), from, acks[|acks| - 1])
  }

  /** `p` has acknowledged `k` in the table with that version. */
  predicate Row<K, V(==)>(acks: AckTable<K, V>, k: K, p: Peer, v: Version<V>) {
    k in acks && p in acks[k] && acks[k][p] == v
  }

  /** The last acknowledgment of `k` in the list says `v`. */
  ghost predicate LastSays<K, V>(acks: seq<Ack<K, V>>, k: K, v: Version<V>) {
    exists i :: 0 <= i < |acks| && acks[i] == (k, v) && forall j :: i < j < |acks| ==> acks[j].0 != k
  }

  ghost predicate Mentions<K, V>(acks: seq<Ack<K, V>>, k: K) {
    exists i :: 0 <= i < |acks| && acks[i].0 == k
  }

  /**
   * A list of acknowledgments from one peer sets that peer's version for exactly the held tombstones it
   * mentions, to the last one it gives, and leaves every other entry of the table alone.
   */
  lemma {:induction false} RecordsExactly<K, V>(n: Node<K, V>, from: Peer, acks: seq<Ack<K, V>>, k: K, p: Peer, v: Version<V>)
    ensures Row(RecordAcks(n, from, acks).acks, k, p, v)
       <==> if p == from && k in n.dated && n.dated[k].state.Tombstone? && Mentions(acks, k) then LastSays(acks, k, v)
            else Row(n.acks, k, p, v)
  {
    if acks != [] {
      var i := |acks| - 1;
      var front, last := acks[..i], acks[i];
      RecordsExactly(n, from, front, k, p, v);
      assert forall j :: 0 <= j < i ==> front[j] == acks[j];
      assert Mentions(acks, k) <==> last.0 == k || Mentions(front, k);
      if last.0 == k {
        assert LastSays(acks, k, v) <==> last.1 == v;
      } else {
        LastSaysEarlier(acks, k, v);
      }
    }
  }

  lemma LastSaysEarlier<K, V>(acks: seq<Ack<K, V>>, k: K, v: Version<V>)
    requires acks != [] && acks[|acks| - 1].0 != k
    ensures LastSays(acks, k, v) <==> LastSays(acks[..|acks| - 1], k, v)
  {
    var front := acks[..|acks| - 1];
    if i :| 0 <= i < |front| && front[i] == (k, v) && forall j :: i < j < |front| ==> front[j].0 != k {
      assert acks[i] == (k, v);
    }
    if i :| 0 <= i < |acks| && acks[i] == (k, v) && forall j :: i < j < |acks| ==> acks[j].0 != k {
      assert front[i] == (k, v);
    }
  }

  predicate AllMembersAcknowledged<K, V(==)>(members: set<Peer>, acks: AckTable<K, V>, k: K, v: Version<V>) {
    members == {} || (k in acks && forall p :: p in members ==> p in acks[k] && acks[k][p] == v)
  }

  predicate IsTombstoneStable<K, V(==)>(n: Node<K, V>, k: K, v: Version<V>) {
    AllMembersAcknowledged(n.members, n.acks, k, v)
  }

  /** Whether `peer` still owes an acknowledgment on some held tombstone. */
  predicate HasPendingTombstoneAcks<K, V(==)>(n: Node<K, V>, peer: Peer) {
    exists k :: k in n.live && k in n.dated &&
      !(k in n.acks && peer in n.acks[k] && n.acks[k][peer] == Digest(n.dated[k]))
  }

  predicate Collectible<K, V(==)>(n: Node<K, V>, k: K, expected: Stamp, now: int, retention: nat) {
    && k in n.dated && n.dated[k].state.Tombstone? && n.dated[k].stamp == expected
    && now >= 0 && expected.hlc.physical + retention < now
    && IsTombstoneStable(n, k, Digest(n.dated[k]))
  }

  function CollectCandidate<K, V(==)>(n: Node<K, V>, k: K, expected: Stamp, now: int, retention: nat): (r: Node<K, V>)
    ensures Agrees(n) ==> Agrees(r)
    ensures k in r.dated <==> k in n.dated && !Collectible(n, k, expected, now, retention)
    ensures Collectible(n, k, expected, now, retention) ==> k !in r.projection && k !in r.live && k !in r.acks
    ensures forall j :: j in n.dated && j != k ==> j in r.dated && r.dated[j] == n.dated[j] && (j in r.live <==> j in n.live)
    ensures forall j :: j in n.acks && j != k ==> j in r.acks && r.acks[j] == n.acks[j]
    ensures r.dated.Keys <= n.dated.Keys && r.acks.Keys <= n.acks.Keys && r.members == n.members && r.clock == n.clock
  {
    if Collectible(n, k, expected, now, retention) then
      n.(dated := n.dated - {k}, projection := n.projection - {k}, live := n.live - {k}, acks := n.acks - {k})
    else n
  }

  function Decommission<K, V>(n: Node<K, V>, p: Peer): Node<K, V> {
    n.(members := n.members - {p}, acks := map k | k in n.acks :: n.acks[k] - {p})
  }

  /** Every held tombstone has its receipts exactly when no member owes one. */
  lemma StableIffNothingPending<K, V>(n: Node<K, V>)
    requires Agrees(n)
    ensures (forall k :: k in n.live ==> IsTombstoneStable(n, k, Digest(n.dated[k])))
            <==> (forall p :: p in n.members ==> !HasPendingTombstoneAcks(n, p))
  {
    if k :| k in n.live && !IsTombstoneStable(n, k, Digest(n.dated[k])) {
      var p :| p in n.members && !(k in n.acks && p in n.acks[k] && n.acks[k][p] == Digest(n.dated[k]));
      assert HasPendingTombstoneAcks(n, p);
    }
  }

  /** Once a peer is gone, stability asks for everybody else's receipt, and none of its own is left. */
  lemma DecommissionedPeerIsNotAwaited<K, V>(n: Node<K, V>, p: Peer, k: K, v: Version<V>)
    ensures IsTombstoneStable(Decommission(n, p), k, v)
       <==> (forall q :: q in n.members && q != p ==> k in n.acks && q in n.acks[k] && n.acks[k][q] == v)
    ensures p !in Decommission(n, p).members && (k in Decommission(n, p).acks ==> p !in Decommission(n, p).acks[k])
  {
    var r := Decommission(n, p);
    assert forall q :: q in r.members <==> q in n.members && q != p;
    if r.members != {} {
      var q :| q in r.members;
      assert q in n.members && q != p;
    }
  }

  // ---- The replica in place ----

  class Replica<K(==), V(==)> {
    const maxClockDrift: nat
    var dated: Dated<K, V>
    var projection: map<K, State<V>>
    var live: set<K>
    var acks: AckTable<K, V>
    var members: set<Peer>
    var clock: Hlc
    var collisionReported: bool

    ghost function View(): Node<K, V>
      reads this
    {
      Node(dated, projection, live, acks, members, clock, collisionReported)
    }

    constructor (maxClockDrift: nat)
      ensures View() == Node(map[], map[], {}, map[], {}, Hlc(0, 0), false) && Agrees(View())
      ensures this.maxClockDrift == maxClockDrift
    {
      this.maxClockDrift := maxClockDrift;
      dated, projection, live, acks, members := map[], map[], {}, map[], {};
      clock, collisionReported := Hlc(0, 0), false;
    }

    /** The single mutation sink: map, projection and tombstone index move together. */
    method MapInsert(k: K, e: Entry<V>) returns (previous: Option<Entry<V>>)
      modifies this
      ensures View() == Put(old(View()), k, e)
      ensures previous == if k in old(dated) then Some(old(dated)[k]) else None
    {
      if e.state.Tombstone? {
        live := live + {k};
      } else {
        live := live - {k};
      }
      projection := projection[k := e.state];
      previous := if k in dated then Some(dated[k]) else None;
      dated := dated[k := e];
    }

    /** Report a collision once; returns whether this call is the one that reported. */
    method Report() returns (first: bool)
      modifies this`collisionReported
      ensures collisionReported && first == !old(collisionReported)
    {
      first := !collisionReported;
      collisionReported := true;
    }

    /** First phase: decide against the current map which updates can still change it. */
    method ScreenUpdates(updates: seq<Update<K, V>>, readings: seq<nat>)
      returns (toApply: seq<Update<K, V>>, ackList: seq<Ack<K, V>>)
      requires |updates| == |readings|
      modifies this
      ensures View() == old(View()).(clock := ObserveAll(old(clock), updates, readings, maxClockDrift))
      ensures toApply == Screen(old(dated), updates) && ackList == ScreenAcks(old(dated), updates)
    {
      toApply, ackList := [], [];
      for i := 0 to |updates|
        invariant View() == old(View()).(clock := ObserveAll(old(clock), updates[..i], readings[..i], maxClockDrift))
        invariant toApply == Screen(old(dated), updates[..i]) && ackList == ScreenAcks(old(dated), updates[..i])
      {
        var (k, remote) := updates[i];
        assert updates[..i + 1][..i] == updates[..i] && readings[..i + 1][..i] == readings[..i];
        clock := ObserveReading(clock, readings[i], remote.stamp, maxClockDrift);
        if k in dated {
          if Less(dated[k].stamp, remote.stamp) {
            toApply := toApply + [(k, remote)];
          } else if dated[k].state.Tombstone? {
            ackList := ackList + [(k, Digest(dated[k]))];
          }
        } else {
          toApply := toApply + [(k, remote)];
        }
      }
      assert updates[..|updates|] == updates && readings[..|readings|] == readings;
    }

    /** Second phase, under the lock: merge each surviving update with whatever is held now. */
    method MergeUnderLock(toApply: seq<Update<K, V>>) returns (ackList: seq<Ack<K, V>>)
      modifies this
      ensures View() == MergePutAll(old(View()), toApply)
      ensures ackList == MergeAcks(old(dated), toApply)
    {
      ackList := [];
      for i := 0 to |toApply|
        invariant View() == MergePutAll(old(View()), toApply[..i])
        invariant ackList == MergeAcks(old(dated), toApply[..i])
      {
        var (k, remote) := toApply[i];
        assert toApply[..i + 1][..i] == toApply[..i];
        var merged := remote;
        if k in dated {
          if IsNodeIdCollision(dated[k], remote) {
            var _ := Report();
          }
          merged := Merge(dated[k], remote);
        }
        var _ := MapInsert(k, merged);
        if merged.state.Tombstone? {
          ackList := ackList + [(k, Digest(merged))];
        }
      }
      assert toApply[..|toApply|] == toApply;
    }

    method RecordTombstoneAcks(from: Peer, ackList: seq<Ack<K, V>>)
      modifies this`acks
      ensures View() == RecordAcks(old(View()), from, ackList)
    {
      for i := 0 to |ackList|
        invariant View() == RecordAcks(old(View()), from, ackList[..i])
      {
        assert ackList[..i + 1][..i] == ackList[..i];
        var (k, version) := ackList[i];
        if k in dated && dated[k].state.Tombstone? {
          var row := if k in acks then acks[k] else map[];
          acks := acks[k := row[from := version]];
        }
      }
      assert ackList[..|ackList|] == ackList;
    }

    /** Remove an expired, fully acknowledged tombstone of the expected stamp, and its receipts. */
    method CollectIfStable(k: K, expected: Stamp, now: int, retention: nat) returns (removed: Option<Entry<V>>)
      modifies this
      ensures View() == CollectCandidate(old(View()), k, expected, now, retention)
      ensures removed == if Collectible(old(View()), k, expected, now, retention) then Some(old(dated)[k]) else None
    {
      if k !in dated {
        return None;
      }
      var entry := dated[k];
      if !entry.state.Tombstone? || entry.stamp != expected || now < 0 {
        return None;
      }
      if entry.stamp.hlc.physical + retention >= now || !AllMembersAcknowledged(members, acks, k, Digest(entry)) {
        return None;
      }
      live := live - {k};
      projection := projection - {k};
      dated := dated - {k};
      acks := acks - {k};
      removed := Some(entry);
    }

    /** The runtime path: nothing is collected while the history gate gives no proof. */
    method GcCollect(collectionProof: bool, k: K, expected: Stamp, now: int, retention: nat)
      returns (removed: Option<Entry<V>>)
      modifies this
      ensures View() == if collectionProof then CollectCandidate(old(View()), k, expected, now, retention) else old(View())
      ensures removed == if collectionProof && Collectible(old(View()), k, expected, now, retention) then Some(old(dated)[k]) else None
    {
      if !collectionProof {
        return None;
      }
      removed := CollectIfStable(k, expected, now, retention);
    }

    method DecommissionPeer(p: Peer)
      modifies this
      ensures View() == Decommission(old(View()), p)
    {
      members := members - {p};
      acks := map k | k in acks :: acks[k] - {p};
    }
  }
}
