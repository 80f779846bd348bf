/**
 * Causal stability over whole runs: what a recorded receipt proves about the peer that sent it, for
 * exactly as long as nothing undercuts the acknowledged stamp there, and a discipline of the clock
 * under which nothing ever does.
 */
module Stability {
  import opened Lww
  import Clock
  import opened Replica
  import opened Cluster

  /** Node `a` has recorded `v` as the version of `k` that `p` acknowledged. */
  ghost predicate Recorded<K, V>(c: Cluster<K, V>, a: Peer, k: K, p: Peer, v: Version<V>) {
    a in c.nodes && k in c.nodes[a].acks && p in c.nodes[a].acks[k] && c.nodes[a].acks[k][p] == v
  }

  /** Some receipt ever sent, or a batch still to be finished, speaks for `p` holding `k` at `s` or above. */
  ghost predicate Vouched<K, V>(c: Cluster<K, V>, p: Peer, k: K, s: Stamp) {
    || (exists r :: r in c.receipts && r.from == p && r.key == k && AtMost(s, r.version.of.stamp))
    || (exists f :: f in c.flights && f.node == p && k in f.snapshot && AtMost(s, f.snapshot[k].stamp))
  }

  ghost predicate VouchedIsHeld<K, V>(c: Cluster<K, V>, p: Peer, k: K, s: Stamp) {
    Vouched(c, p, k, s) ==> HeldAtLeast(c, p, k, s)
  }

  ghost predicate TableHolds<K, V>(c: Cluster<K, V>, a: Peer)
    requires a in c.nodes
  {
    forall k, p :: k in c.nodes[a].acks && p in c.nodes[a].acks[k] ==>
      Receipt(p, k, c.nodes[a].acks[k][p]) in c.receipts
  }

  ghost predicate TablesHold<K, V>(c: Cluster<K, V>) {
    forall a :: a in c.nodes ==> TableHolds(c, a)
  }

  lemma {:induction false} ScreenAcksComeFromTheSnapshot<K, V>(snapshot: Dated<K, V>, batch: seq<Update<K, V>>)
    ensures forall a :: a in ScreenAcks(snapshot, batch) ==> a.0 in snapshot && a.1 == Digest(snapshot[a.0])
  {
    if batch != [] {
      ScreenAcksComeFromTheSnapshot(snapshot, batch[..|batch| - 1]);
    }
  }

  lemma {:induction false} MergeAcksAreHeld<K, V>(m: Dated<K, V>, batch: seq<Update<K, V>>)
    ensures forall a :: a in MergeAcks(m, batch) ==>
      a.0 in MergeAll(m, batch) && AtMost(a.1.of.stamp, MergeAll(m, batch)[a.0].stamp)
  {
    if batch != [] {
      MergeAcksAreHeld(m, batch[..|batch| - 1]);
    }
  }

  lemma {:induction false} RecordedAcksWereDelivered<K, V>(n: Node<K, V>, from: Peer, acks: seq<Ack<K, V>>, k: K, p: Peer)
    requires k in RecordAcks(n, from, acks).acks && p in RecordAcks(n, from, acks).acks[k]
    ensures (k in n.acks && p in n.acks[k] && RecordAcks(n, from, acks).acks[k][p] == n.acks[k][p])
            || (p == from && (k, RecordAcks(n, from, acks).acks[k][p]) in acks)
  {
    if acks != [] {
      var front := acks[..|acks| - 1];
      var before := RecordAcks(n, from, front);
      if k in before.acks && p in before.acks[k] {
        RecordedAcksWereDelivered(n, from, front, k, p);
      }
    }
  }

  /** A step brings a new voucher only for what its node holds afterwards or was vouched for before. */
  lemma FinishVouches<K, V>(c: Cluster<K, V>, f: Flight<K, V>, m: Dated<K, V>, a: Ack<K, V>, k: K, s: Stamp)
    requires f in c.flights && a.0 == k && AtMost(s, a.1.of.stamp)
    requires a in ScreenAcks(f.snapshot, f.batch) || a in MergeAcks(m, Screen(f.snapshot, f.batch))
    ensures || Vouched(c, f.node, k, s)
            || (k in MergeAll(m, Screen(f.snapshot, f.batch)) && AtMost(s, MergeAll(m, Screen(f.snapshot, f.batch))[k].stamp))
  {
    ScreenAcksComeFromTheSnapshot(f.snapshot, f.batch);
    MergeAcksAreHeld(m, Screen(f.snapshot, f.batch));
  }

  lemma NewReceiptIsHeld<K, V>(c: Cluster<K, V>, step: Step<K, V>, env: Env, r: Receipt<K, V>, s: Stamp)
    requires r in Next(c, step, env).receipts && r !in c.receipts && AtMost(s, r.version.of.stamp)
    ensures Vouched(c, r.from, r.key, s) || HeldAtLeast(Next(c, step, env), r.from, r.key, s)
  {
    if step.Finish? {
      var f := step.flight;
      var a :| a in FlightAcks(f, c.nodes[f.node].dated) && r == Receipt(f.node, a.0, a.1);
      FinishVouches(c, f, c.nodes[f.node].dated, a, r.key, s);
    } else {
      assert step.Resend?;
    }
  }

  lemma NewFlightIsHeld<K, V>(c: Cluster<K, V>, step: Step<K, V>, env: Env, f: Flight<K, V>, k: K, s: Stamp)
    requires f in Next(c, step, env).flights && f !in c.flights && k in f.snapshot && AtMost(s, f.snapshot[k].stamp)
    ensures HeldAtLeast(Next(c, step, env), f.node, k, s)
  {
    assert step.Receive?;
  }

  lemma VouchedStep<K, V>(c: Cluster<K, V>, step: Step<K, V>, env: Env, p: Peer, k: K, s: Stamp)
    requires VouchedIsHeld(c, p, k, s) && !env.gateOpen && !Undercuts(c, step, p, k, s)
    ensures VouchedIsHeld(Next(c, step, env), p, k, s)
  {
    var c' := Next(c, step, env);
    if HeldAtLeast(c, p, k, s) {
      HeldUnlessUndercut(c, step, env, p, k, s);
    } else if r :| r in c'.receipts && r.from == p && r.key == k && AtMost(s, r.version.of.stamp) {
      NewReceiptIsHeld(c, step, env, r, s);
    } else if f :| f in c'.flights && f.node == p && k in f.snapshot && AtMost(s, f.snapshot[k].stamp) {
      NewFlightIsHeld(c, step, env, f, k, s);
    }
  }

  lemma TablesStep<K, V>(c: Cluster<K, V>, step: Step<K, V>, env: Env)
    requires TablesHold(c) && !env.gateOpen
    ensures TablesHold(Next(c, step, env))
  {
    var c' := Next(c, step, env);
    forall a | a in c'.nodes
      ensures TableHolds(c', a)
    {
      assert TableHolds(c, a);
      if Enabled(c, step) && step.TakeReceipts? && step.node == a {
        forall k, p | k in c'.nodes[a].acks && p in c'.nodes[a].acks[k]
          ensures Receipt(p, k, c'.nodes[a].acks[k][p]) in c'.receipts
        {
          RecordedAcksWereDelivered(c.nodes[a], step.from, step.acks, k, p);
        }
      }
    }
  }

  lemma UnharmedPrefix<K, V>(c: Cluster<K, V>, steps: seq<Step<K, V>>, env: Env, i: nat, p: Peer, k: K, s: Stamp)
    requires i <= |steps| && Unharmed(c, steps, env, 0, i, p, k, s)
    ensures Unharmed(c, steps[..i], env, 0, i, p, k, s)
  {
    forall t | 0 <= t < i
      ensures !UndercutBy(c, steps[..i], env, t, p, k, s)
    {
      assert steps[..i][..t] == steps[..t];
      assert !UndercutBy(c, steps, env, t, p, k, s);
    }
  }

  /**
   * In every run in which nothing undercuts `(p, k, s)`, whatever happens elsewhere: every receipt ever
   * sent and every pending snapshot that vouches for `p` holding `k` at `s` or above is true, and every
   * recorded receipt was sent.
   */
  lemma {:induction false} ReceiptInvariants<K, V>(c: Cluster<K, V>, steps: seq<Step<K, V>>, env: Env, p: Peer, k: K, s: Stamp)
    requires Initial(c) && !env.gateOpen && Unharmed(c, steps, env, 0, |steps|, p, k, s)
    ensures VouchedIsHeld(Run(c, steps, env), p, k, s) && TablesHold(Run(c, steps, env))
  {
    if steps != [] {
      var n := |steps| - 1;
      assert Unharmed(c, steps, env, 0, n, p, k, s);
      UnharmedPrefix(c, steps, env, n, p, k, s);
      ReceiptInvariants(c, steps[..n], env, p, k, s);
      assert !UndercutBy(c, steps, env, n, p, k, s);
      VouchedStep(Run(c, steps[..n], env), steps[n], env, p, k, s);
      TablesStep(Run(c, steps[..n], env), steps[n], env);
    }
  }

  lemma RecordedIsVouched<K, V>(c: Cluster<K, V>, a: Peer, k: K, p: Peer, v: Version<V>)
    requires TablesHold(c) && Recorded(c, a, k, p, v)
    ensures Vouched(c, p, k, v.of.stamp)
  {
    assert TableHolds(c, a);
    assert Receipt(p, k, v) in c.receipts;
  }

  /**
   * Causal stability, exactly: when `a` records that `p` acknowledged a version of `k`, and nothing has
   * undercut that version at `p` so far, `p` holds `k` at its stamp or above; and it does so ever after
   * if and only if `p` inserts nothing below that stamp for `k` from then on. Inserts of other keys or
   * at other nodes, and inserts at `p` at or above the acknowledged stamp, make no difference.
   */
  lemma ReceiptMeansHeldEverAfter<K, V>(c: Cluster<K, V>, steps: seq<Step<K, V>>, env: Env, i: nat,
                                        a: Peer, k: K, p: Peer, v: Version<V>)
    requires Initial(c) && !env.gateOpen && i <= |steps| && Recorded(Run(c, steps[..i], env), a, k, p, v)
    requires Unharmed(c, steps, env, 0, i, p, k, v.of.stamp)
    ensures HeldAfter(c, steps, env, i, p, k, v.of.stamp)
    ensures (forall j :: i <= j <= |steps| ==> HeldAfter(c, steps, env, j, p, k, v.of.stamp))
       <==> (forall t :: i <= t < |steps| ==> !BelowBy(c, steps, env, t, p, k, v.of.stamp))
  {
    UnharmedPrefix(c, steps, env, i, p, k, v.of.stamp);
    ReceiptInvariants(c, steps[..i], env, p, k, v.of.stamp);
    RecordedIsVouched(Run(c, steps[..i], env), a, k, p, v);
    NoResurrection(c, steps, env, i, p, k, v.of.stamp);
  }

  /**
   * A tombstone that passes the receipt quorum is held, or outranked, by every member at which nothing
   * has undercut it, and stays so exactly as long as nothing is inserted below it there.
   */
  lemma StableMeansEveryMemberHolds<K, V>(c: Cluster<K, V>, steps: seq<Step<K, V>>, env: Env, i: nat, a: Peer, k: K, t: Entry<V>, p: Peer)
    requires Initial(c) && !env.gateOpen && i <= |steps| && a in Run(c, steps[..i], env).nodes
    requires IsTombstoneStable(Run(c, steps[..i], env).nodes[a], k, Digest(t)) && p in Run(c, steps[..i], env).nodes[a].members
    requires Unharmed(c, steps, env, 0, i, p, k, t.stamp)
    ensures HeldAfter(c, steps, env, i, p, k, t.stamp)
    ensures (forall j :: i <= j <= |steps| ==> HeldAfter(c, steps, env, j, p, k, t.stamp))
       <==> (forall x :: i <= x < |steps| ==> !BelowBy(c, steps, env, x, p, k, t.stamp))
  {
    ReceiptMeansHeldEverAfter(c, steps, env, i, a, k, p, Digest(t));
  }

  /**
   * What collection checks before it removes: the tombstone is past its retention, and every member at
   * which its stamp was not undercut holds the key at that stamp or above.
   */
  lemma CollectibleIsHeldEverywhere<K, V>(c: Cluster<K, V>, steps: seq<Step<K, V>>, env: Env, a: Peer, k: K,
                                          expected: Stamp, now: int, retention: nat, p: Peer)
    requires Initial(c) && !env.gateOpen && a in Run(c, steps, env).nodes
    requires Collectible(Run(c, steps, env).nodes[a], k, expected, now, retention) && p in Run(c, steps, env).nodes[a].members
    requires Unharmed(c, steps, env, 0, |steps|, p, k, expected)
    ensures HeldAtLeast(Run(c, steps, env), p, k, expected) && now - expected.hlc.physical > retention
  {
    assert steps[..|steps|] == steps;
    StableMeansEveryMemberHolds(c, steps, env, |steps|, a, k, Run(c, steps, env).nodes[a].dated[k], p);
    assert HeldAfter(c, steps, env, |steps|, p, k, expected);
  }

  /** The last word on `p` at `a` admitted it. */
  ghost predicate LastAdmitted<K, V>(steps: seq<Step<K, V>>, a: Peer, p: Peer) {
    exists i :: 0 <= i < |steps| && steps[i] == Admit(a, p) && forall j :: i < j < |steps| ==> steps[j] != Retire(a, p)
  }

  lemma LastAdmittedSnoc<K, V>(steps: seq<Step<K, V>>, step: Step<K, V>, a: Peer, p: Peer)
    ensures LastAdmitted(steps + [step], a, p) <==> step == Admit(a, p) || (step != Retire(a, p) && LastAdmitted(steps, a, p))
  {
    var all := steps + [step];
    if step == Admit(a, p) {
      assert all[|steps|] == step;
    } else if LastAdmitted(all, a, p) {
      var i :| 0 <= i < |all| && all[i] == Admit(a, p) && forall j :: i < j < |all| ==> all[j] != Retire(a, p);
      assert all[|steps|] == step;
      assert steps[i] == Admit(a, p) && forall j :: i < j < |steps| ==> all[j] == steps[j];
    } else if LastAdmitted(steps, a, p) {
      var i :| 0 <= i < |steps| && steps[i] == Admit(a, p) && forall j :: i < j < |steps| ==> steps[j] != Retire(a, p);
      assert all[i] == Admit(a, p);
    }
  }

  lemma StepChangesMembership<K, V>(c: Cluster<K, V>, step: Step<K, V>, env: Env, a: Peer, p: Peer)
    requires Exists(c, a)
    ensures Next(c, step, env).nodes.Keys == c.nodes.Keys
    ensures p in Next(c, step, env).nodes[a].members
       <==> step == Admit(a, p) || (step != Retire(a, p) && p in c.nodes[a].members)
  {
  }

  /** Stability waits for exactly the peers whose last admission was not followed by a decommission. */
  lemma {:induction false} MembersAreTheLastAdmitted<K, V>(c: Cluster<K, V>, steps: seq<Step<K, V>>, env: Env, a: Peer, p: Peer)
    requires Initial(c) && a in c.nodes
    ensures a in Run(c, steps, env).nodes && a in Run(c, steps, env).absorbed
    ensures p in Run(c, steps, env).nodes[a].members <==> LastAdmitted(steps, a, p)
  {
    if steps != [] {
      var before, step := steps[..|steps| - 1], steps[|steps| - 1];
      MembersAreTheLastAdmitted(c, before, env, a, p);
      StepChangesMembership(Run(c, before, env), step, env, a, p);
      LastAdmittedSnoc(before, step, a, p);
      assert before + [step] == steps;
    }
  }

  /** A run is free of stale inserts if and only if it undercuts no node, key and stamp. */
  lemma FreshIffUnharmed<K(!new), V>(c: Cluster<K, V>, steps: seq<Step<K, V>>, env: Env)
    ensures Fresh(c, steps, env) <==> forall p, k, s :: Unharmed(c, steps, env, 0, |steps|, p, k, s)
  {
    if Fresh(c, steps, env) {
      forall p, k, s, t | 0 <= t < |steps|
        ensures !UndercutBy(c, steps, env, t, p, k, s)
      {
        assert FreshAt(c, steps, env, t);
        StaleIffUndercuts(Run(c, steps[..t], env), steps[t]);
      }
    } else {
      var t :| 0 <= t < |steps| && !FreshAt(c, steps, env, t);
      StaleIffUndercuts(Run(c, steps[..t], env), steps[t]);
      var p, k, s :| Undercuts(Run(c, steps[..t], env), steps[t], p, k, s);
      assert UndercutBy(c, steps, env, t, p, k, s);
      assert !Unharmed(c, steps, env, 0, |steps|, p, k, s);
    }
  }

  // ---- When the clock keeps every run fresh ----

  /** Writes take their stamp and the lock together, and received stamps are within the drift budget. */
  ghost predicate Prudent<K, V>(step: Step<K, V>, env: Env) {
    match step
    case Mint(_, _, _, _) => false
    case Receive(_, batch, readings) =>
      forall i :: 0 <= i < |batch| && i < |readings| ==> Clock.WithinBudget(readings[i], batch[i].1.stamp, env.drift)
    case _ => true
  }

  ghost predicate ClockAhead<K, V>(c: Cluster<K, V>) {
    && c.drafts == {}
    && (forall n, k :: n in c.nodes && k in c.nodes[n].dated ==>
          HlcAtMost(c.nodes[n].dated[k].stamp.hlc, c.nodes[n].clock))
    && (forall f :: f in c.flights ==> FlightBehind(c, f))
  }

  ghost predicate FlightBehind<K, V>(c: Cluster<K, V>, f: Flight<K, V>) {
    f.node in c.nodes && forall u :: u in f.batch ==> HlcAtMost(u.1.stamp.hlc, c.nodes[f.node].clock)
  }

  lemma {:induction false} MergeAllSource<K, V>(m: Dated<K, V>, batch: seq<Update<K, V>>, k: K)
    requires k in MergeAll(m, batch)
    ensures (k in m && MergeAll(m, batch)[k] == m[k]) || (k, MergeAll(m, batch)[k]) in batch
  {
    if batch != [] {
      var front, u := batch[..|batch| - 1], batch[|batch| - 1];
      if k in MergeAll(m, front) {
        MergeAllSource(m, front, k);
      }
      assert batch == front + [u];
    }
  }

  lemma PrudentReceive<K, V>(last: Hlc, batch: seq<Update<K, V>>, readings: seq<nat>, drift: nat, u: Update<K, V>)
    requires |batch| == |readings| && u in batch
    requires forall i :: 0 <= i < |batch| ==> Clock.WithinBudget(readings[i], batch[i].1.stamp, drift)
    ensures HlcAtMost(u.1.stamp.hlc, ObserveAll(last, batch, readings, drift))
  {
    var i :| 0 <= i < |batch| && batch[i] == u;
    assert Clock.WithinBudget(readings[i], batch[i].1.stamp, drift);
  }

  lemma PrudentFinish<K, V>(f: Flight<K, V>, m: Dated<K, V>, clock: Hlc, k: K)
    requires forall u :: u in f.batch ==> HlcAtMost(u.1.stamp.hlc, clock)
    requires forall key :: key in m ==> HlcAtMost(m[key].stamp.hlc, clock)
    requires k in MergeAll(m, Screen(f.snapshot, f.batch))
    ensures HlcAtMost(MergeAll(m, Screen(f.snapshot, f.batch))[k].stamp.hlc, clock)
  {
    var toApply := Screen(f.snapshot, f.batch);
    ScreenKeeps(f.snapshot, f.batch);
    MergeAllSource(m, toApply, k);
    if !(k in m && MergeAll(m, toApply)[k] == m[k]) {
      assert (k, MergeAll(m, toApply)[k]) in f.batch;
    }
  }

  lemma PrudentStep<K, V>(c: Cluster<K, V>, step: Step<K, V>, env: Env)
    requires ClockAhead(c) && Prudent(step, env) && !env.gateOpen
    ensures ClockAhead(Next(c, step, env)) && !Stale(c, step)
  {
    var c' := Next(c, step, env);
    if Enabled(c, step) && step.Finish? {
      var f := step.flight;
      var node := c.nodes[f.node];
      assert FlightBehind(c, f);
      forall k | k in c'.nodes[f.node].dated
        ensures HlcAtMost(c'.nodes[f.node].dated[k].stamp.hlc, node.clock)
      {
        PrudentFinish(f, node.dated, node.clock, k);
      }
    }
    if Enabled(c, step) && step.Receive? {
      forall u | u in step.batch
        ensures HlcAtMost(u.1.stamp.hlc, c'.nodes[step.node].clock)
      {
        PrudentReceive(c.nodes[step.node].clock, step.batch, step.readings, env.drift, u);
      }
    }
    forall f | f in c'.flights
      ensures FlightBehind(c', f)
    {
      assert f in c.flights ==> FlightBehind(c, f);
    }
  }

  /** Prudent runs never insert a stale stamp, so everything above holds of them outright. */
  lemma {:induction false} PrudentRunsAreFresh<K, V>(c: Cluster<K, V>, steps: seq<Step<K, V>>, env: Env)
    requires Initial(c) && !env.gateOpen && forall step :: step in steps ==> Prudent(step, env)
    ensures ClockAhead(Run(c, steps, env)) && Fresh(c, steps, env)
  {
    if steps != [] {
      var n := |steps| - 1;
      var front := steps[..n];
      PrudentRunsAreFresh(c, front, env);
      PrudentStep(Run(c, front, env), steps[n], env);
      forall t | 0 <= t < |steps|
        ensures FreshAt(c, steps, env, t)
      {
        if t < n {
          assert FreshAt(c, front, env, t);
          assert front[..t] == steps[..t];
        }
      }
    }
  }
}
