/**
 * Stamps are unique across a cluster of distinct node ids, so the collision detector stays silent,
 * and replicas that absorbed the same updates hold the same map and projection, exactly as long as
 * neither of them inserts a stale stamp of its own.
 */
module Convergence {
  import opened Lww
  import Clock
  import opened Replica
  import opened Cluster
  import opened Stability

  ghost predicate UniqueStamps<K, V>(updates: set<Update<K, V>>) {
    forall u, v :: u in updates && v in updates && u.1.stamp == v.1.stamp ==> u == v
  }

  ghost predicate HeldIn<K, V>(m: Dated<K, V>, updates: set<Update<K, V>>) {
    forall k :: k in m ==> (k, m[k]) in updates
  }

  /** Everything in circulation was issued by some node's clock. */
  ghost predicate AllIssued<K, V>(c: Cluster<K, V>) {
    && c.updates <= c.issued
    && (forall d :: d in c.drafts ==> d.update in c.issued)
    && (forall f :: f in c.flights ==> Elements(f.batch) <= c.issued)
    && (forall n :: n in c.nodes ==> HeldIn(c.nodes[n].dated, c.issued))
    && (forall n :: n in c.absorbed ==> c.absorbed[n] <= c.issued)
  }

  ghost predicate IssuerAhead<K, V>(c: Cluster<K, V>, u: Update<K, V>) {
    var n := u.1.stamp.node;
    n in c.nodes && HlcAtMost(u.1.stamp.hlc, c.nodes[n].clock)
  }

  /** Each issued stamp is unique and not ahead of the clock of the node named in it. */
  ghost predicate StampsOrdered<K, V>(c: Cluster<K, V>) {
    UniqueStamps(c.issued) && forall u :: u in c.issued ==> IssuerAhead(c, u)
  }

  lemma StampsOrderedStep<K, V>(c: Cluster<K, V>, step: Step<K, V>, env: Env)
    requires StampsOrdered(c)
    ensures StampsOrdered(Next(c, step, env))
  {
    var c' := Next(c, step, env);
    forall u | u in c'.issued
      ensures IssuerAhead(c', u)
    {
      assert u in c.issued ==> IssuerAhead(c, u);
    }
    if Enabled(c, step) && (step.Mint? || step.Write?) {
      var minted := Minted(c, step.node, step.key, step.state, step.pt);
      forall u | u in c.issued
        ensures u.1.stamp != minted.1.stamp
      {
        assert IssuerAhead(c, u);
      }
    }
  }

  lemma FinishStaysWithin<K, V>(f: Flight<K, V>, m: Dated<K, V>, updates: set<Update<K, V>>)
    requires Elements(f.batch) <= updates && HeldIn(m, updates)
    ensures HeldIn(MergeAll(m, Screen(f.snapshot, f.batch)), updates)
  {
    var r := MergeAll(m, Screen(f.snapshot, f.batch));
    ScreenKeeps(f.snapshot, f.batch);
    forall k | k in r
      ensures (k, r[k]) in updates
    {
      MergeAllSource(m, Screen(f.snapshot, f.batch), k);
      assert (k, r[k]) in Screen(f.snapshot, f.batch) ==> (k, r[k]) in Elements(f.batch);
    }
  }

  lemma AllIssuedStep<K, V>(c: Cluster<K, V>, step: Step<K, V>, env: Env)
    requires AllIssued(c)
    ensures AllIssued(Next(c, step, env))
  {
    var c' := Next(c, step, env);
    if Enabled(c, step) {
      match step
      case Finish(f) => FinishStaysWithin(f, c.nodes[f.node].dated, c.issued);
      case Receive(n, batch, readings) => assert Elements(batch) <= c.issued;
      case _ =>
    }
    forall n | n in c'.nodes
      ensures HeldIn(c'.nodes[n].dated, c'.issued)
    {
      assert HeldIn(c.nodes[n].dated, c.issued);
    }
  }

  lemma {:induction false} NoCollisionInABatch<K, V>(n: Node<K, V>, batch: seq<Update<K, V>>, issued: set<Update<K, V>>)
    requires UniqueStamps(issued) && HeldIn(n.dated, issued) && Elements(batch) <= issued
    ensures MergePutAll(n, batch).collisionReported == n.collisionReported
  {
    if batch != [] {
      var front, u := batch[..|batch| - 1], batch[|batch| - 1];
      assert batch == front + [u] && u in Elements(batch);
      assert forall v :: v in front ==> v in Elements(batch);
      NoCollisionInABatch(n, front, issued);
      var before := MergePutAll(n, front);
      if u.0 in before.dated {
        MergeAllSource(n.dated, front, u.0);
        assert (u.0, before.dated[u.0]) in issued;
      }
    }
  }

  ghost predicate Silent<K, V>(c: Cluster<K, V>) {
    forall n :: n in c.nodes ==> !c.nodes[n].collisionReported
  }

  lemma SilentStep<K, V>(c: Cluster<K, V>, step: Step<K, V>, env: Env)
    requires AllIssued(c) && StampsOrdered(c) && Silent(c)
    ensures Silent(Next(c, step, env))
  {
    if Enabled(c, step) && step.Finish? {
      var f := step.flight;
      ScreenKeeps(f.snapshot, f.batch);
      assert Elements(Screen(f.snapshot, f.batch)) <= Elements(f.batch);
      NoCollisionInABatch(c.nodes[f.node], Screen(f.snapshot, f.batch), c.issued);
    }
  }

  /**
   * With distinct node ids and no restart no run ever trips the collision detector, stale inserts
   * and open collection included, and no two updates in circulation share a stamp.
   */
  lemma {:induction false} CollisionsNeverHappen<K, V>(c: Cluster<K, V>, steps: seq<Step<K, V>>, env: Env)
    requires Initial(c)
    ensures AllIssued(Run(c, steps, env)) && StampsOrdered(Run(c, steps, env)) && Silent(Run(c, steps, env))
  {
    if steps != [] {
      var front, step := steps[..|steps| - 1], steps[|steps| - 1];
      CollisionsNeverHappen(c, front, env);
      AllIssuedStep(Run(c, front, env), step, env);
      StampsOrderedStep(Run(c, front, env), step, env);
      SilentStep(Run(c, front, env), step, env);
    }
  }

  // ---- Convergence, one node at a time ----

  /** The node's map is the set of winners among the updates it absorbed. */
  ghost predicate WinnersAt<K, V>(c: Cluster<K, V>, n: Peer) {
    Exists(c, n) && Winners(c.nodes[n].dated, c.absorbed[n])
  }

  /** The node has lowered nothing since it took the snapshots of its pending batches. */
  ghost predicate FlightsAt<K, V>(c: Cluster<K, V>, n: Peer) {
    n in c.nodes && forall f :: f in c.flights && f.node == n ==> Above(f.snapshot, c.nodes[n].dated)
  }

  /** The step is an insert at `n` that overwrites a greater stamp. */
  ghost predicate StaleAt<K, V>(c: Cluster<K, V>, step: Step<K, V>, n: Peer) {
    exists d :: d in Insertion(c, step) && d.node == n && n in c.nodes && Overwrites(c, n, d.update)
  }

  lemma StaleIffStaleSomewhere<K, V>(c: Cluster<K, V>, step: Step<K, V>)
    ensures Stale(c, step) <==> exists n :: StaleAt(c, step, n)
  {
    if Stale(c, step) {
      var d := if step.Commit? then step.draft else Draft(step.node, Minted(c, step.node, step.key, step.state, step.pt));
      assert d in Insertion(c, step);
      assert StaleAt(c, step, d.node);
    }
  }

  lemma InsertionAbsorbs<K, V>(c: Cluster<K, V>, step: Step<K, V>, env: Env, d: Draft<K, V>, c': Cluster<K, V>)
    requires d in Insertion(c, step) && c' == Next(c, step, env)
    ensures Exists(c, d.node) && c'.absorbed == c.absorbed[d.node := c.absorbed[d.node] + {d.update}]
    ensures c'.flights == c.flights
  {
  }

  lemma FreshPutKeepsWinners<K, V>(m: Dated<K, V>, u: Update<K, V>, updates: set<Update<K, V>>)
    requires Winners(m, updates) && (u.0 in m ==> !Less(u.1.stamp, m[u.0].stamp))
    ensures Winners(m[u.0 := u.1], updates + {u})
  {
  }

  /** An insert leaves winners exactly when it overwrites no greater stamp. */
  lemma PutKeepsWinnersIff<K, V>(m: Dated<K, V>, u: Update<K, V>, updates: set<Update<K, V>>)
    requires Winners(m, updates)
    ensures Winners(m[u.0 := u.1], updates + {u}) <==> !(u.0 in m && Less(u.1.stamp, m[u.0].stamp))
  {
    if u.0 in m && Less(u.1.stamp, m[u.0].stamp) {
      assert (u.0, m[u.0]) in updates + {u};
    } else {
      FreshPutKeepsWinners(m, u, updates);
    }
  }

  lemma FinishKeepsWinners<K(!new), V>(f: Flight<K, V>, m: Dated<K, V>, updates: set<Update<K, V>>)
    requires Above(f.snapshot, m) && Winners(m, updates)
    ensures Winners(MergeAll(m, Screen(f.snapshot, f.batch)), updates + Elements(f.batch))
  {
    MonotoneInterleavingIsSafe(f.snapshot, m, f.batch);
    MergeAllKeepsWinners(m, f.batch, updates);
  }

  lemma InsertionWinnersIff<K, V>(c: Cluster<K, V>, step: Step<K, V>, env: Env, d: Draft<K, V>, n: Peer)
    requires WinnersAt(c, n) && d in Insertion(c, step)
    ensures WinnersAt(Next(c, step, env), n) <==> !StaleAt(c, step, n)
  {
    InsertionReplaces(c, step, env, d, Next(c, step, env));
    InsertionAbsorbs(c, step, env, d, Next(c, step, env));
    if d.node == n {
      PutKeepsWinnersIff(c.nodes[n].dated, d.update, c.absorbed[n]);
    }
  }

  lemma FinishWinners<K(!new), V>(c: Cluster<K, V>, f: Flight<K, V>, env: Env, n: Peer)
    requires WinnersAt(c, n) && FlightsAt(c, n) && Enabled(c, Step.Finish(f))
    ensures WinnersAt(Next(c, Step.Finish(f), env), n)
  {
    if f.node == n {
      FinishKeepsWinners(f, c.nodes[n].dated, c.absorbed[n]);
    }
  }

  /** A step leaves the node's map the winners of what it absorbed exactly when it is not a stale insert there. */
  lemma WinnersStepIff<K(!new), V>(c: Cluster<K, V>, step: Step<K, V>, env: Env, n: Peer)
    requires WinnersAt(c, n) && FlightsAt(c, n) && !env.gateOpen
    ensures WinnersAt(Next(c, step, env), n) <==> !StaleAt(c, step, n)
  {
    if d :| d in Insertion(c, step) {
      InsertionWinnersIff(c, step, env, d, n);
    } else {
      OtherStepsInsertNothing(c, step);
      if Enabled(c, step) && step.Finish? {
        FinishWinners(c, step.flight, env, n);
      }
    }
  }

  lemma NotStaleRaises<K, V>(c: Cluster<K, V>, step: Step<K, V>, env: Env, n: Peer, c': Cluster<K, V>)
    requires n in c.nodes && !env.gateOpen && !StaleAt(c, step, n) && c' == Next(c, step, env)
    ensures n in c'.nodes && Above(c.nodes[n].dated, c'.nodes[n].dated)
  {
    if d :| d in Insertion(c, step) {
      InsertionReplaces(c, step, env, d, c');
    } else {
      OtherStepsRaise(c, step, env, n, c');
    }
  }

  lemma NewFlightIsCurrent<K, V>(c: Cluster<K, V>, step: Step<K, V>, env: Env, f: Flight<K, V>, c': Cluster<K, V>)
    requires c' == Next(c, step, env) && f in c'.flights && f !in c.flights
    ensures f.node in c'.nodes && f.snapshot == c'.nodes[f.node].dated
  {
    assert step.Receive?;
  }

  lemma FlightsStep<K, V>(c: Cluster<K, V>, step: Step<K, V>, env: Env, n: Peer, c': Cluster<K, V>)
    requires FlightsAt(c, n) && !env.gateOpen && !StaleAt(c, step, n) && c' == Next(c, step, env)
    ensures FlightsAt(c', n)
  {
    NotStaleRaises(c, step, env, n, c');
    forall f | f in c'.flights && f.node == n
      ensures Above(f.snapshot, c'.nodes[n].dated)
    {
      if f in c.flights {
        AboveTransitive(f.snapshot, c.nodes[n].dated, c'.nodes[n].dated);
      } else {
        NewFlightIsCurrent(c, step, env, f, c');
      }
    }
  }

  ghost predicate StaleInsertBy<K, V>(c: Cluster<K, V>, steps: seq<Step<K, V>>, env: Env, t: nat, n: Peer)
    requires t < |steps|
  {
    StaleAt(Run(c, steps[..t], env), steps[t], n)
  }

  ghost predicate WinnersAfter<K, V>(c: Cluster<K, V>, steps: seq<Step<K, V>>, env: Env, i: nat, n: Peer)
    requires i <= |steps|
  {
    WinnersAt(Run(c, steps[..i], env), n)
  }

  /** No step up to `to` is a stale insert at `n`. */
  ghost predicate FreshBefore<K, V>(c: Cluster<K, V>, steps: seq<Step<K, V>>, env: Env, to: nat, n: Peer)
    requires to <= |steps|
  {
    forall t :: 0 <= t < to ==> !StaleInsertBy(c, steps, env, t, n)
  }

  /** A run is free of stale inserts if and only if it is at every node. */
  lemma FreshMeansFreshEverywhere<K, V>(c: Cluster<K, V>, steps: seq<Step<K, V>>, env: Env)
    ensures Fresh(c, steps, env) <==> forall n :: FreshBefore(c, steps, env, |steps|, n)
  {
    if Fresh(c, steps, env) {
      forall n, t | 0 <= t < |steps|
        ensures !StaleInsertBy(c, steps, env, t, n)
      {
        assert FreshAt(c, steps, env, t);
        StaleIffStaleSomewhere(Run(c, steps[..t], env), steps[t]);
      }
    } else {
      var t :| 0 <= t < |steps| && !FreshAt(c, steps, env, t);
      StaleIffStaleSomewhere(Run(c, steps[..t], env), steps[t]);
      var n :| StaleAt(Run(c, steps[..t], env), steps[t], n);
      assert StaleInsertBy(c, steps, env, t, n);
      assert !FreshBefore(c, steps, env, |steps|, n);
    }
  }

  lemma {:induction false} WinnersWhileFresh<K(!new), V>(c: Cluster<K, V>, steps: seq<Step<K, V>>, env: Env, i: nat, n: Peer)
    requires Initial(c) && !env.gateOpen && n in c.nodes && i <= |steps| && FreshBefore(c, steps, env, i, n)
    ensures WinnersAfter(c, steps, env, i, n) && FlightsAt(Run(c, steps[..i], env), n)
  {
    if i > 0 {
      WinnersWhileFresh(c, steps, env, i - 1, n);
      RunStep(c, steps, env, i - 1);
      assert !StaleInsertBy(c, steps, env, i - 1, n);
      WinnersStepIff(Run(c, steps[..i - 1], env), steps[i - 1], env, n);
      FlightsStep(Run(c, steps[..i - 1], env), steps[i - 1], env, n, Run(c, steps[..i], env));
    }
  }

  /**
   * After every step of a run a node's map is the winners of what it absorbed, if and only if no step
   * of the run is a stale insert at that node. Stale inserts at other nodes do not matter.
   */
  lemma MapsAreAlwaysWinners<K(!new), V>(c: Cluster<K, V>, steps: seq<Step<K, V>>, env: Env, n: Peer)
    requires Initial(c) && !env.gateOpen && n in c.nodes
    ensures (forall i :: 0 <= i <= |steps| ==> WinnersAfter(c, steps, env, i, n)) <==> FreshBefore(c, steps, env, |steps|, n)
  {
    if FreshBefore(c, steps, env, |steps|, n) {
      forall i | 0 <= i <= |steps|
        ensures WinnersAfter(c, steps, env, i, n)
      {
        WinnersWhileFresh(c, steps, env, i, n);
      }
    } else {
      var t := FirstStaleInsert(c, steps, env, |steps|, n);
      WinnersWhileFresh(c, steps, env, t, n);
      RunStep(c, steps, env, t);
      WinnersStepIff(Run(c, steps[..t], env), steps[t], env, n);
      assert !WinnersAfter(c, steps, env, t + 1, n);
    }
  }

  lemma {:induction false} FirstStaleInsert<K, V>(c: Cluster<K, V>, steps: seq<Step<K, V>>, env: Env, to: nat, n: Peer) returns (t: nat)
    requires to <= |steps| && !FreshBefore(c, steps, env, to, n)
    ensures t < to && StaleInsertBy(c, steps, env, t, n) && FreshBefore(c, steps, env, t, n)
  {
    if FreshBefore(c, steps, env, to - 1, n) {
      t := to - 1;
    } else {
      t := FirstStaleInsert(c, steps, env, to - 1, n);
    }
  }

  /**
   * Convergence: in every run, two replicas that made no stale insert and absorbed the same updates,
   * in any order, batching, interleaving and repetition, hold equal maps and equal projections,
   * whatever the other nodes did.
   */
  lemma ReplicasConverge<K(!new), V>(c: Cluster<K, V>, steps: seq<Step<K, V>>, env: Env, a: Peer, b: Peer)
    requires Initial(c) && !env.gateOpen && a in c.nodes && b in c.nodes
    requires FreshBefore(c, steps, env, |steps|, a) && FreshBefore(c, steps, env, |steps|, b)
    requires a in Run(c, steps, env).absorbed && b in Run(c, steps, env).absorbed
    requires Run(c, steps, env).absorbed[a] == Run(c, steps, env).absorbed[b]
    ensures a in Run(c, steps, env).nodes && b in Run(c, steps, env).nodes
    ensures Run(c, steps, env).nodes[a].dated == Run(c, steps, env).nodes[b].dated
    ensures Run(c, steps, env).nodes[a].projection == Run(c, steps, env).nodes[b].projection
  {
    CollisionsNeverHappen(c, steps, env);
    IndexesAlwaysAgree(c, steps, env);
    WinnersWhileFresh(c, steps, env, |steps|, a);
    WinnersWhileFresh(c, steps, env, |steps|, b);
    assert steps[..|steps|] == steps;
    EqualAbsorbedEqualMaps(Run(c, steps, env), a, b);
  }

  lemma EqualAbsorbedEqualMaps<K, V>(c: Cluster<K, V>, a: Peer, b: Peer)
    requires AllIssued(c) && StampsOrdered(c) && WinnersAt(c, a) && WinnersAt(c, b) && IndexesAgree(c)
    requires c.absorbed[a] == c.absorbed[b]
    ensures c.nodes[a].dated == c.nodes[b].dated && c.nodes[a].projection == c.nodes[b].projection
  {
    WinnersUnique(c.nodes[a].dated, c.nodes[b].dated, c.absorbed[a]);
  }
}
