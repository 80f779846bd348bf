/**
 * Last-writer-wins entries: stamps, states, the merge that keeps the greater stamp, and the
 * two-phase application of a received batch (screen against a snapshot, merge under the lock).
 */
module Lww {

  datatype Hlc = Hlc(physical: nat, logical: nat)

  predicate HlcLess(a: Hlc, b: Hlc) {
    a.physical < b.physical || (a.physical == b.physical && a.logical < b.logical)
  }

  predicate HlcAtMost(a: Hlc, b: Hlc) {
    a == b || HlcLess(a, b)
  }

  datatype Stamp = Stamp(hlc: Hlc, node: nat)

  predicate Less(a: Stamp, b: Stamp) {
    HlcLess(a.hlc, b.hlc) || (a.hlc == b.hlc && a.node < b.node)
  }

  predicate AtMost(a: Stamp, b: Stamp) {
    a == b || Less(a, b)
  }

  datatype State<+V> = Present(value: V) | Tombstone

  datatype Entry<+V> = Entry(stamp: Stamp, state: State<V>)

  type Update<K, V> = (K, Entry<V>)

  type Dated<K, V> = map<K, Entry<V>>

  /** The greater stamp wins; the local side is kept on a tie. */
  function Merge<V>(local: Entry<V>, remote: Entry<V>): Entry<V> {
    if Less(local.stamp, remote.stamp) then remote else local
  }

  function MergeInto<K, V>(m: Dated<K, V>, u: Update<K, V>): Dated<K, V> {
    if u.0 in m then m[u.0 := Merge(m[u.0], u.1)] else m[u.0 := u.1]
  }

  function MergeAll<K, V>(m: Dated<K, V>, batch: seq<Update<K, V>>): Dated<K, V> {
    if batch == [] then m
    else MergeInto(MergeAll(m, batch[..|batch| - 1]), batch[|batch| - 1])
  }

  /** Every key of `m` is held in `m'` at the same or a greater stamp. */
  ghost predicate Above<K, V>(m: Dated<K, V>, m': Dated<K, V>) {
    forall k :: k in m ==> k in m' && AtMost(m[k].stamp, m'[k].stamp)
  }

  lemma AboveTransitive<K, V>(m: Dated<K, V>, m': Dated<K, V>, m'': Dated<K, V>)
    requires Above(m, m') && Above(m', m'')
    ensures Above(m, m'')
  {
    assert forall k :: k in m ==> k in m';
  }

  /** Both maps hold the same entry for `k`, or neither holds one. */
  ghost predicate SameAt<K, V>(m: Dated<K, V>, m': Dated<K, V>, k: K) {
    (k in m <==> k in m') && (k in m ==> m[k] == m'[k])
  }

  lemma SameEverywhere<K(!new), V>(m: Dated<K, V>, m': Dated<K, V>)
    requires forall k :: SameAt(m, m', k)
    ensures m == m'
  {
    assert forall k :: k in m ==> SameAt(m, m', k);
    assert forall k :: k in m' ==> SameAt(m, m', k);
  }

  /** `r` holds, for each key of `updates`, one of its entries with the greatest stamp. */
  ghost predicate Winners<K, V>(r: Dated<K, V>, updates: set<Update<K, V>>) {
    && (forall k :: k in r ==> (k, r[k]) in updates)
    && (forall u :: u in updates ==> u.0 in r && AtMost(u.1.stamp, r[u.0].stamp))
  }

  /** No two updates of one key share a stamp without being the same update. */
  ghost predicate CollisionFree<K, V>(updates: set<Update<K, V>>) {
    forall u, v :: u in updates && v in updates && u.0 == v.0 && u.1.stamp == v.1.stamp ==> u == v
  }

  ghost function Elements<K, V>(batch: seq<Update<K, V>>): set<Update<K, V>> {
    set u | u in batch
  }

  lemma WinnersUnique<K, V>(r: Dated<K, V>, r': Dated<K, V>, updates: set<Update<K, V>>)
    requires CollisionFree(updates) && Winners(r, updates) && Winners(r', updates)
    ensures r == r'
  {
    forall k | k in r
      ensures k in r' && r[k] == r'[k]
    {
      assert (k, r[k]) in updates;
      assert (k, r'[k]) in updates;
    }
    forall k | k in r'
      ensures k in r
    {
      assert (k, r'[k]) in updates;
    }
  }

  lemma MergeIntoKeepsWinners<K, V>(m: Dated<K, V>, u: Update<K, V>, updates: set<Update<K, V>>)
    requires Winners(m, updates)
    ensures Winners(MergeInto(m, u), updates + {u})
  {
    var r := MergeInto(m, u);
    forall k | k in r
      ensures (k, r[k]) in updates + {u}
    {
      if k in m && r[k] == m[k] {
        assert (k, m[k]) in updates;
      }
    }
  }

  lemma {:induction false} MergeAllKeepsWinners<K, V>(m: Dated<K, V>, batch: seq<Update<K, V>>, updates: set<Update<K, V>>)
    requires Winners(m, updates)
    ensures Winners(MergeAll(m, batch), updates + Elements(batch))
  {
    if batch == [] {
      assert updates + Elements(batch) == updates;
    } else {
      var front, u := batch[..|batch| - 1], batch[|batch| - 1];
      MergeAllKeepsWinners(m, front, updates);
      MergeIntoKeepsWinners(MergeAll(m, front), u, updates + Elements(front));
      assert batch == front + [u];
      assert updates + Elements(front) + {u} == updates + Elements(batch);
    }
  }

  /**
   * Replicas that took the same updates hold the same map, whatever the order, the batching and
   * the repetitions, as long as no stamp collides.
   */
  lemma OrderAndDuplicationDoNotMatter<K, V>(a: seq<Update<K, V>>, b: seq<Update<K, V>>)
    requires Elements(a) == Elements(b) && CollisionFree(Elements(a))
    ensures MergeAll(map[], a) == MergeAll(map[], b)
  {
    MergeAllKeepsWinners(map[], a, {});
    MergeAllKeepsWinners(map[], b, {});
    assert {} + Elements(a) == Elements(a);
    assert {} + Elements(b) == Elements(b);
    WinnersUnique(MergeAll(map[], a), MergeAll(map[], b), Elements(a));
  }

  lemma {:induction false} MergeAllAbove<K, V>(m: Dated<K, V>, batch: seq<Update<K, V>>)
    ensures Above(m, MergeAll(m, batch))
    ensures forall u :: u in batch ==> u.0 in MergeAll(m, batch) && AtMost(u.1.stamp, MergeAll(m, batch)[u.0].stamp)
  {
    if batch != [] {
      MergeAllAbove(m, batch[..|batch| - 1]);
      assert batch == batch[..|batch| - 1] + [batch[|batch| - 1]];
    }
  }

  // ---- Screening against a snapshot ----

  /** Whether a received update can change the state seen in `snapshot`. */
  predicate Passes<K, V>(snapshot: Dated<K, V>, u: Update<K, V>) {
    u.0 in snapshot ==> Less(snapshot[u.0].stamp, u.1.stamp)
  }

  /** The updates of `batch` that pass the screen, in order. */
  function Screen<K, V>(snapshot: Dated<K, V>, batch: seq<Update<K, V>>): seq<Update<K, V>> {
    if batch == [] then []
    else
      var front, u := batch[..|batch| - 1], batch[|batch| - 1];
      Screen(snapshot, front) + if Passes(snapshot, u) then [u] else []
  }

  /** Some update of `batch` for `k` passes the screen. */
  ghost predicate SomePasses<K, V>(snapshot: Dated<K, V>, batch: seq<Update<K, V>>, k: K) {
    exists u :: u in batch && u.0 == k && Passes(snapshot, u)
  }

  /**
   * How the map published by the two phases (`p`) relates, at key `k`, to the plain merge of the
   * whole batch (`j`): they agree, or only screened-out updates reached `k` and won there.
   */
  ghost predicate Tracks<K, V>(snapshot: Dated<K, V>, start: Dated<K, V>, batch: seq<Update<K, V>>,
                               p: Dated<K, V>, j: Dated<K, V>, k: K) {
    && (SomePasses(snapshot, batch, k) ==> k in p && (k in snapshot ==> Less(snapshot[k].stamp, p[k].stamp)))
    && (!SomePasses(snapshot, batch, k) ==> SameAt(p, start, k))
    && (SameAt(j, start, k) || (k in j && (k, j[k]) in batch))
    && (SameAt(p, j, k)
        || (&& !SomePasses(snapshot, batch, k)
            && k in j && k in snapshot && AtMost(j[k].stamp, snapshot[k].stamp)
            && (k in start ==> Less(start[k].stamp, j[k].stamp))))
  }

  lemma TracksStep<K, V>(snapshot: Dated<K, V>, start: Dated<K, V>, front: seq<Update<K, V>>, u: Update<K, V>,
                         p: Dated<K, V>, j: Dated<K, V>, k: K)
    requires Tracks(snapshot, start, front, p, j, k)
    ensures Tracks(snapshot, start, front + [u], if Passes(snapshot, u) then MergeInto(p, u) else p, MergeInto(j, u), k)
  {
    var batch := front + [u];
    assert u in batch && forall v :: v in front ==> v in batch;
    if SomePasses(snapshot, front, k) {
      var v :| v in front && v.0 == k && Passes(snapshot, v);
      assert SomePasses(snapshot, batch, k);
    } else if u.0 != k || !Passes(snapshot, u) {
      assert !SomePasses(snapshot, batch, k);
    } else {
      assert SomePasses(snapshot, batch, k);
    }
  }

  lemma {:induction false} TwoPhaseTracks<K, V>(snapshot: Dated<K, V>, start: Dated<K, V>, batch: seq<Update<K, V>>, k: K)
    ensures Tracks(snapshot, start, batch, MergeAll(start, Screen(snapshot, batch)), MergeAll(start, batch), k)
  {
    if batch != [] {
      var front, u := batch[..|batch| - 1], batch[|batch| - 1];
      TwoPhaseTracks(snapshot, start, front, k);
      var s := Screen(snapshot, front);
      assert batch == front + [u];
      assert (s + [u])[..|s|] == s && s + [] == s;
      assert Screen(snapshot, batch) == s + if Passes(snapshot, u) then [u] else [];
      TracksStep(snapshot, start, front, u, MergeAll(start, s), MergeAll(start, front), k);
    }
  }

  /** Each screened-out update is beaten by an update that passed or by the map under the lock. */
  ghost predicate ScreenIsSafe<K, V>(snapshot: Dated<K, V>, current: Dated<K, V>, batch: seq<Update<K, V>>) {
    forall u :: u in batch && !Passes(snapshot, u) ==>
      || SomePasses(snapshot, batch, u.0)
      || (u.0 in current && AtMost(u.1.stamp, current[u.0].stamp))
  }

  /**
   * The optimistic application linearizes at the lock exactly when the screen was safe: the
   * published map is then the merge of the map found under the lock with the whole batch.
   */
  lemma TwoPhaseLinearizes<K(!new), V>(snapshot: Dated<K, V>, current: Dated<K, V>, batch: seq<Update<K, V>>)
    ensures MergeAll(current, Screen(snapshot, batch)) == MergeAll(current, batch)
            <==> ScreenIsSafe(snapshot, current, batch)
  {
    var p, j := MergeAll(current, Screen(snapshot, batch)), MergeAll(current, batch);
    MergeAllAbove(current, batch);
    if ScreenIsSafe(snapshot, current, batch) {
      forall k
        ensures SameAt(p, j, k)
      {
        TwoPhaseTracks(snapshot, current, batch, k);
      }
      SameEverywhere(p, j);
    } else {
      var u :| u in batch && !Passes(snapshot, u) && !SomePasses(snapshot, batch, u.0)
        && (u.0 in current ==> !AtMost(u.1.stamp, current[u.0].stamp));
      TwoPhaseTracks(snapshot, current, batch, u.0);
      assert !SameAt(p, j, u.0);
    }
  }

  /** If no entry went below the snapshot before the lock was taken, the screen was safe. */
  lemma MonotoneInterleavingIsSafe<K(!new), V>(snapshot: Dated<K, V>, current: Dated<K, V>, batch: seq<Update<K, V>>)
    requires Above(snapshot, current)
    ensures MergeAll(current, Screen(snapshot, batch)) == MergeAll(current, batch)
  {
    assert ScreenIsSafe(snapshot, current, batch);
    TwoPhaseLinearizes(snapshot, current, batch);
  }

  lemma {:induction false} ScreenKeeps<K, V>(snapshot: Dated<K, V>, batch: seq<Update<K, V>>)
    ensures forall u :: u in Screen(snapshot, batch) <==> u in batch && Passes(snapshot, u)
  {
    if batch != [] {
      ScreenKeeps(snapshot, batch[..|batch| - 1]);
      assert batch == batch[..|batch| - 1] + [batch[|batch| - 1]];
    }
  }
}
