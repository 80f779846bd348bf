/**
 * Which receipts are sent. The two phases of applying a batch acknowledge exactly the tombstones they
 * leave standing; over every run a node has acknowledged every tombstone it holds and did not write
 * itself, and every tombstone of a finished batch that it holds.
 */
module Acknowledgment {
  import opened Lww
  import opened Replica
  import opened Cluster
  import opened Stability
  import opened Convergence
  import StabilityLimits

  // ---- The two phases ----

  /** Update `u` meets in `snapshot` a tombstone it cannot change. */
  ghost predicate Answers<K, V>(snapshot: Dated<K, V>, u: Update<K, V>) {
    u.0 in snapshot && snapshot[u.0].state.Tombstone? && AtMost(u.1.stamp, snapshot[u.0].stamp)
  }

  /** The first phase acknowledges exactly the tombstones of the snapshot that an update of the batch cannot change. */
  lemma {:induction false} ScreenAcksExactly<K, V>(snapshot: Dated<K, V>, batch: seq<Update<K, V>>, a: Ack<K, V>)
    ensures a in ScreenAcks(snapshot, batch)
       <==> exists u :: u in batch && Answers(snapshot, u) && a == (u.0, Digest(snapshot[u.0]))
  {
    if batch != [] {
      var front, last := batch[..|batch| - 1], batch[|batch| - 1];
      ScreenAcksExactly(snapshot, front, a);
      assert batch == front + [last];
      if a in ScreenAcks(snapshot, front) {
        var u :| u in front && Answers(snapshot, u) && a == (u.0, Digest(snapshot[u.0]));
        assert u in batch;
      }
      assert a in TombstoneAck(snapshot, last.0) && !Passes(snapshot, last) ==> last in batch && Answers(snapshot, last);
    }
  }

  /** After the first `i` updates of `batch`, `k` is held as the tombstone `e`. */
  ghost predicate LeavesTombstone<K, V>(m: Dated<K, V>, batch: seq<Update<K, V>>, i: nat, k: K, e: Entry<V>)
    requires i <= |batch|
  {
    var r := MergeAll(m, batch[..i]);
    k in r && r[k] == e && e.state.Tombstone?
  }

  /** Some update of `k` is merged and leaves the tombstone `e`. */
  ghost predicate SomeLeaves<K, V>(m: Dated<K, V>, batch: seq<Update<K, V>>, k: K, e: Entry<V>) {
    exists i :: 0 <= i < |batch| && batch[i].0 == k && LeavesTombstone(m, batch, i + 1, k, e)
  }

  lemma SomeLeavesSnoc<K, V>(m: Dated<K, V>, batch: seq<Update<K, V>>, front: seq<Update<K, V>>, u: Update<K, V>, k: K, e: Entry<V>)
    requires batch == front + [u]
    ensures SomeLeaves(m, batch, k, e)
       <==> SomeLeaves(m, front, k, e) || (u.0 == k && LeavesTombstone(m, batch, |batch|, k, e))
  {
    assert batch[|front|] == u;
    forall i | 0 <= i < |front|
      ensures front[i] == batch[i]
      ensures LeavesTombstone(m, front, i + 1, k, e) <==> LeavesTombstone(m, batch, i + 1, k, e)
    {
      assert front[..i + 1] == batch[..i + 1];
    }
  }

  /** The second phase acknowledges exactly the tombstones held right after the merge of an update of their key. */
  lemma {:induction false} MergeAcksExactly<K, V>(m: Dated<K, V>, batch: seq<Update<K, V>>, k: K, e: Entry<V>)
    ensures (k, Digest(e)) in MergeAcks(m, batch) <==> SomeLeaves(m, batch, k, e)
  {
    if batch != [] {
      var n := |batch| - 1;
      MergeAcksExactly(m, batch[..n], k, e);
      SomeLeavesSnoc(m, batch, batch[..n], batch[n], k, e);
      assert batch[..n + 1] == batch;
    }
  }

  // ---- What finishing a batch acknowledges ----

  /** Merging the rest of a batch changes an entry only for a greater stamp. */
  lemma {:induction false} LaterMergesRaise<K, V>(m: Dated<K, V>, batch: seq<Update<K, V>>, i: nat, k: K)
    requires i <= |batch| && k in MergeAll(m, batch[..i])
    ensures k in MergeAll(m, batch)
    ensures var before, after := MergeAll(m, batch[..i])[k], MergeAll(m, batch)[k];
      after == before || Less(before.stamp, after.stamp)
    decreases |batch|
  {
    if i == |batch| {
      assert batch[..i] == batch;
    } else {
      var n := |batch| - 1;
      assert batch[..n][..i] == batch[..i];
      LaterMergesRaise(m, batch[..n], i, k);
    }
  }

  /** A tombstone that a batch brings and leaves held is acknowledged under the lock. */
  lemma MergedTombstoneIsAcknowledged<K, V>(m: Dated<K, V>, batch: seq<Update<K, V>>, u: Update<K, V>)
    requires u in batch && u.1.state.Tombstone? && u.0 in MergeAll(m, batch) && MergeAll(m, batch)[u.0] == u.1
    ensures (u.0, Digest(u.1)) in MergeAcks(m, batch)
  {
    var i :| 0 <= i < |batch| && batch[i] == u;
    var r := MergeAll(m, batch[..i + 1]);
    assert batch[..i + 1][..i] == batch[..i];
    assert u.0 in r && AtMost(u.1.stamp, r[u.0].stamp);
    LaterMergesRaise(m, batch, i + 1, u.0);
    assert LeavesTombstone(m, batch, i + 1, u.0, u.1);
    MergeAcksExactly(m, batch, u.0, u.1);
  }

  /** A screened merge leaves every key it touches above the snapshot. */
  lemma MergeAckIsAboveTheSnapshot<K, V>(f: Flight<K, V>, m: Dated<K, V>, k: K, e: Entry<V>)
    requires (k, Digest(e)) in MergeAcks(m, Screen(f.snapshot, f.batch)) && k in f.snapshot
    ensures Less(f.snapshot[k].stamp, e.stamp)
  {
    var batch := Screen(f.snapshot, f.batch);
    MergeAcksExactly(m, batch, k, e);
    ScreenKeeps(f.snapshot, f.batch);
    var i :| 0 <= i < |batch| && batch[i].0 == k && LeavesTombstone(m, batch, i + 1, k, e);
    MergeAllAbove(m, batch[..i + 1]);
    assert batch[i] in batch[..i + 1];
    assert batch[i] in batch && Passes(f.snapshot, batch[i]);
  }

  /**
   * Exactly which tombstones of a batch that end up held are acknowledged with it: those that passed the
   * screen and those the snapshot held already.
   */
  lemma AcknowledgedIff<K, V>(f: Flight<K, V>, m: Dated<K, V>, u: Update<K, V>)
    requires u in f.batch && u.1.state.Tombstone?
    requires var r := MergeAll(m, Screen(f.snapshot, f.batch)); u.0 in r && r[u.0] == u.1
    ensures (u.0, Digest(u.1)) in FlightAcks(f, m)
       <==> Passes(f.snapshot, u) || (u.0 in f.snapshot && f.snapshot[u.0] == u.1)
  {
    var a := (u.0, Digest(u.1));
    ScreenKeeps(f.snapshot, f.batch);
    ScreenAcksExactly(f.snapshot, f.batch, a);
    if Passes(f.snapshot, u) {
      MergedTombstoneIsAcknowledged(m, Screen(f.snapshot, f.batch), u);
    } else if f.snapshot[u.0] == u.1 {
      assert Answers(f.snapshot, u);
    } else if a in MergeAcks(m, Screen(f.snapshot, f.batch)) {
      MergeAckIsAboveTheSnapshot(f, m, u.0, u.1);
    }
  }

  /** A tombstone screened out against a greater stamp, and put back before the batch was finished, is not. */
  lemma LoweredTombstoneIsNotAcknowledged<K, V>(k: K, v: V, n: Peer, f: Flight<K, V>, m: Dated<K, V>, u: Update<K, V>)
    requires u == (k, Entry(Stamp(Hlc(5, 0), n), Tombstone)) && m == map[k := u.1]
    requires f == Flight(n, map[k := Entry(Stamp(Hlc(9, 0), n), Present(v))], [u])
    ensures MergeAll(m, Screen(f.snapshot, f.batch)) == m && (u.0, Digest(u.1)) !in FlightAcks(f, m)
  {
    assert f.batch[..0] == [] && Screen(f.snapshot, f.batch[..0]) == [];
    AcknowledgedIff(f, m, u);
  }

  lemma HeldInSnapshotIsAcknowledged<K, V>(f: Flight<K, V>, m: Dated<K, V>, u: Update<K, V>)
    requires u in f.batch && u.1.state.Tombstone? && u.0 in f.snapshot && f.snapshot[u.0] == u.1
    ensures (u.0, Digest(u.1)) in FlightAcks(f, m)
  {
    assert Answers(f.snapshot, u);
    ScreenAcksExactly(f.snapshot, f.batch, (u.0, Digest(u.1)));
  }

  // ---- Every run ----

  ghost predicate Acknowledged<K, V>(c: Cluster<K, V>, n: Peer, u: Update<K, V>) {
    Receipt(n, u.0, Digest(u.1)) in c.receipts
  }

  /** The node has acknowledged the tombstone it holds for `k`, unless it wrote it itself. */
  ghost predicate AnsweredAt<K, V>(c: Cluster<K, V>, n: Peer, k: K)
    requires n in c.nodes && k in c.nodes[n].dated
  {
    var e := c.nodes[n].dated[k];
    e.state.Tombstone? && e.stamp.node != n ==> Acknowledged(c, n, (k, e))
  }

  ghost predicate AllAnswered<K, V>(c: Cluster<K, V>) {
    && (forall n, k :: n in c.nodes && k in c.nodes[n].dated ==> AnsweredAt(c, n, k))
    && (forall d :: d in c.drafts ==> d.update.1.stamp.node == d.node)
  }

  lemma FinishAnswers<K, V>(c: Cluster<K, V>, f: Flight<K, V>, env: Env, k: K)
    requires AllAnswered(c) && Enabled(c, Step.Finish(f)) && k in Next(c, Step.Finish(f), env).nodes[f.node].dated
    ensures AnsweredAt(Next(c, Step.Finish(f), env), f.node, k)
  {
    var m, batch := c.nodes[f.node].dated, Screen(f.snapshot, f.batch);
    var r := MergeAll(m, batch);
    MergeAllSource(m, batch, k);
    if k in m && r[k] == m[k] {
      assert AnsweredAt(c, f.node, k);
    } else if r[k].state.Tombstone? {
      MergedTombstoneIsAcknowledged(m, batch, (k, r[k]));
      assert (k, Digest(r[k])) in FlightAcks(f, m);
    }
  }

  lemma InsertionIsOwn<K, V>(c: Cluster<K, V>, step: Step<K, V>, d: Draft<K, V>)
    requires AllAnswered(c) && d in Insertion(c, step)
    ensures d.update.1.stamp.node == d.node
  {
  }

  lemma AnsweredStep<K, V>(c: Cluster<K, V>, step: Step<K, V>, env: Env, c': Cluster<K, V>, n: Peer, k: K)
    requires AllAnswered(c) && c' == Next(c, step, env) && n in c'.nodes && k in c'.nodes[n].dated
    ensures AnsweredAt(c', n, k)
  {
    if d :| d in Insertion(c, step) {
      InsertionReplaces(c, step, env, d, c');
      InsertionIsOwn(c, step, d);
      assert n != d.node || k != d.update.0 ==> AnsweredAt(c, n, k);
    } else {
      OtherStepsInsertNothing(c, step);
      if Enabled(c, step) && step.Finish? && step.flight.node == n {
        FinishAnswers(c, step.flight, env, k);
      } else {
        KeptOtherwise(c, step, env, c', n, k);
      }
    }
  }

  /** Apart from inserts and the batches a node finishes itself, steps leave it no entry it did not hold. */
  lemma KeptOtherwise<K, V>(c: Cluster<K, V>, step: Step<K, V>, env: Env, c': Cluster<K, V>, n: Peer, k: K)
    requires AllAnswered(c) && c' == Next(c, step, env) && n in c'.nodes && k in c'.nodes[n].dated
    requires Enabled(c, step) ==> !step.Commit? && !step.Write? && !(step.Finish? && step.flight.node == n)
    ensures AnsweredAt(c', n, k)
  {
    assert n in c.nodes && k in c.nodes[n].dated && c'.nodes[n].dated[k] == c.nodes[n].dated[k];
    assert c.receipts <= c'.receipts;
    assert AnsweredAt(c, n, k);
  }

  lemma DraftsStayOwn<K, V>(c: Cluster<K, V>, step: Step<K, V>, env: Env, c': Cluster<K, V>, d: Draft<K, V>)
    requires AllAnswered(c) && c' == Next(c, step, env) && d in c'.drafts
    ensures d.update.1.stamp.node == d.node
  {
    if d !in c.drafts {
      assert step.Mint?;
    }
  }

  /**
   * No receipt is forgotten: after every run, whatever was lost, lowered or collected meanwhile, a node
   * has sent a receipt for every tombstone it holds and did not write itself.
   */
  lemma {:induction false} HeldTombstonesAreAcknowledged<K, V>(c: Cluster<K, V>, steps: seq<Step<K, V>>, env: Env)
    requires Initial(c)
    ensures AllAnswered(Run(c, steps, env))
  {
    if steps != [] {
      var front, step := steps[..|steps| - 1], steps[|steps| - 1];
      HeldTombstonesAreAcknowledged(c, front, env);
      var before, after := Run(c, front, env), Run(c, steps, env);
      forall n, k | n in after.nodes && k in after.nodes[n].dated
        ensures AnsweredAt(after, n, k)
      {
        AnsweredStep(before, step, env, after, n, k);
      }
      forall d | d in after.drafts
        ensures d.update.1.stamp.node == d.node
      {
        DraftsStayOwn(before, step, env, after, d);
      }
    }
  }

  lemma FinishSendsReceipts<K, V>(c: Cluster<K, V>, f: Flight<K, V>, env: Env, u: Update<K, V>)
    requires Enabled(c, Step.Finish(f)) && (u.0, Digest(u.1)) in FlightAcks(f, c.nodes[f.node].dated)
    ensures Acknowledged(Next(c, Step.Finish(f), env), f.node, u)
  {
  }

  // ---- Stamped writes are inserted once, so nothing comes back unacknowledged ----

  /** What is stamped and not yet inserted was not sent either. */
  ghost predicate SentOnce<K, V>(c: Cluster<K, V>) {
    forall d :: d in c.drafts ==> d.update !in c.updates && d.update in c.issued
  }

  /** What holds of every reachable cluster. */
  ghost predicate Sound<K, V>(c: Cluster<K, V>) {
    AllIssued(c) && StampsOrdered(c) && StabilityLimits.Backed(c) && AllAnswered(c)
  }

  lemma MintedIsNew<K, V>(c: Cluster<K, V>, n: Peer, k: K, state: State<V>, pt: nat)
    requires StampsOrdered(c) && n in c.nodes
    ensures Minted(c, n, k, state, pt) !in c.issued
  {
    var u := Minted(c, n, k, state, pt);
    assert u in c.issued ==> IssuerAhead(c, u);
  }

  lemma InsertedDraftsGo<K, V>(c: Cluster<K, V>, step: Step<K, V>, env: Env, c': Cluster<K, V>, d: Draft<K, V>)
    requires Sound(c) && SentOnce(c) && c' == Next(c, step, env) && d in c'.drafts && d in c.drafts
    ensures d.update in c'.issued && forall e :: e in Insertion(c, step) ==> e.update != d.update
  {
    if Enabled(c, step) && step.Write? {
      MintedIsNew(c, step.node, step.key, step.state, step.pt);
    }
  }

  /** Only an insertion sends what was not sent before. */
  lemma SentByInsertion<K, V>(c: Cluster<K, V>, step: Step<K, V>, env: Env, c': Cluster<K, V>, u: Update<K, V>)
    requires StabilityLimits.Backed(c) && c' == Next(c, step, env) && u in c'.updates
    ensures u in c.updates || exists d :: d in Insertion(c, step) && d.update == u
  {
    if Enabled(c, step) {
      match step
      case Commit(d) => assert d in Insertion(c, step);
      case Write(n, k, state, pt) => assert Draft(n, Minted(c, n, k, state, pt)) in Insertion(c, step);
      case Advertise(n, k) => assert HeldIn(c.nodes[n].dated, c.updates);
      case _ =>
    }
  }

  lemma MintDrafts<K, V>(c: Cluster<K, V>, step: Step<K, V>, env: Env, c': Cluster<K, V>, d: Draft<K, V>)
    requires StampsOrdered(c) && c.updates <= c.issued && c' == Next(c, step, env) && d in c'.drafts && d !in c.drafts
    ensures d.update !in c'.updates && d.update in c'.issued
  {
    MintedIsNew(c, step.node, step.key, step.state, step.pt);
  }

  lemma DraftStaysUnsent<K, V>(c: Cluster<K, V>, step: Step<K, V>, env: Env, c': Cluster<K, V>, d: Draft<K, V>)
    requires Sound(c) && SentOnce(c) && c' == Next(c, step, env) && d in c'.drafts
    ensures d.update !in c'.updates && d.update in c'.issued
  {
    if d !in c.drafts {
      MintDrafts(c, step, env, c', d);
    } else if d.update in c'.updates {
      SentByInsertion(c, step, env, c', d.update);
      InsertedDraftsGo(c, step, env, c', d);
    }
  }

  /** The first phase dropped the tombstone `u` without a receipt for it. */
  ghost predicate Missed<K, V>(f: Flight<K, V>, u: Update<K, V>) {
    u in f.batch && u.1.state.Tombstone? && !Passes(f.snapshot, u) && f.snapshot[u.0] != u.1
  }

  ghost predicate Holds<K, V>(c: Cluster<K, V>, n: Peer, u: Update<K, V>) {
    n in c.nodes && u.0 in c.nodes[n].dated && c.nodes[n].dated[u.0] == u.1
  }

  /** If it is held nevertheless, it was acknowledged when it was merged. */
  ghost predicate MissedAnswered<K, V>(c: Cluster<K, V>, f: Flight<K, V>, u: Update<K, V>) {
    Missed(f, u) && Holds(c, f.node, u) ==> Acknowledged(c, f.node, u)
  }

  ghost predicate AllMissedAnswered<K, V>(c: Cluster<K, V>) {
    SentOnce(c) && forall f, u :: f in c.flights && u in f.batch ==> MissedAnswered(c, f, u)
  }

  lemma InsertionWasNotSent<K, V>(c: Cluster<K, V>, step: Step<K, V>, d: Draft<K, V>)
    requires Sound(c) && SentOnce(c) && d in Insertion(c, step)
    ensures d.update !in c.updates
  {
    if step.Write? {
      MintedIsNew(c, step.node, step.key, step.state, step.pt);
    }
  }

  lemma MergeAnswers<K, V>(c: Cluster<K, V>, f: Flight<K, V>, env: Env, c': Cluster<K, V>, u: Update<K, V>)
    requires Enabled(c, Step.Finish(f)) && c' == Next(c, Step.Finish(f), env) && u.1.state.Tombstone? && Holds(c', f.node, u)
    ensures Holds(c, f.node, u) || Acknowledged(c', f.node, u)
  {
    var m, batch := c.nodes[f.node].dated, Screen(f.snapshot, f.batch);
    MergeAllSource(m, batch, u.0);
    if !Holds(c, f.node, u) {
      MergedTombstoneIsAcknowledged(m, batch, u);
      assert (u.0, Digest(u.1)) in FlightAcks(f, m);
    }
  }

  lemma OtherStepsHold<K, V>(c: Cluster<K, V>, step: Step<K, V>, env: Env, c': Cluster<K, V>, n: Peer, u: Update<K, V>)
    requires c' == Next(c, step, env) && Holds(c', n, u)
    requires Enabled(c, step) ==> !step.Commit? && !step.Write? && !(step.Finish? && step.flight.node == n)
    ensures Holds(c, n, u)
  {
  }

  /** An update already sent is held after a step only if it was before or the step merged and acknowledged it. */
  lemma HeldBefore<K, V>(c: Cluster<K, V>, step: Step<K, V>, env: Env, c': Cluster<K, V>, n: Peer, u: Update<K, V>)
    requires Sound(c) && SentOnce(c) && c' == Next(c, step, env) && u in c.updates && u.1.state.Tombstone? && Holds(c', n, u)
    ensures Holds(c, n, u) || Acknowledged(c', n, u)
  {
    if d :| d in Insertion(c, step) {
      InsertionReplaces(c, step, env, d, c');
      InsertionWasNotSent(c, step, d);
    } else {
      OtherStepsInsertNothing(c, step);
      if Enabled(c, step) && step.Finish? && step.flight.node == n {
        MergeAnswers(c, step.flight, env, c', u);
      } else {
        OtherStepsHold(c, step, env, c', n, u);
      }
    }
  }

  lemma ReceiptsStay<K, V>(c: Cluster<K, V>, step: Step<K, V>, env: Env, n: Peer, u: Update<K, V>)
    ensures Acknowledged(c, n, u) ==> Acknowledged(Next(c, step, env), n, u)
  {
  }

  lemma NewFlightIsUpToDate<K, V>(c: Cluster<K, V>, step: Step<K, V>, env: Env, c': Cluster<K, V>, f: Flight<K, V>)
    requires c' == Next(c, step, env) && f in c'.flights && f.node in c'.nodes
    ensures f in c.flights || f.snapshot == c'.nodes[f.node].dated
  {
  }

  lemma MissedStep<K, V>(c: Cluster<K, V>, step: Step<K, V>, env: Env, c': Cluster<K, V>, f: Flight<K, V>, u: Update<K, V>)
    requires Sound(c) && AllMissedAnswered(c) && c' == Next(c, step, env) && f in c'.flights && u in f.batch
    ensures MissedAnswered(c', f, u)
  {
    if Missed(f, u) && Holds(c', f.node, u) {
      NewFlightIsUpToDate(c, step, env, c', f);
      if f in c.flights {
        assert u in Elements(f.batch);
        HeldBefore(c, step, env, c', f.node, u);
        ReceiptsStay(c, step, env, f.node, u);
        assert MissedAnswered(c, f, u);
      }
    }
  }

  /** In every run: whatever a screen dropped without a receipt is acknowledged whenever it is held again. */
  lemma {:induction false} MissedTombstonesAreAnswered<K, V>(c: Cluster<K, V>, steps: seq<Step<K, V>>, env: Env)
    requires Initial(c)
    ensures Sound(Run(c, steps, env)) && AllMissedAnswered(Run(c, steps, env))
  {
    CollisionsNeverHappen(c, steps, env);
    StabilityLimits.ReachableIsBacked(c, steps, env);
    HeldTombstonesAreAcknowledged(c, steps, env);
    if steps != [] {
      var front, step := steps[..|steps| - 1], steps[|steps| - 1];
      MissedTombstonesAreAnswered(c, front, env);
      var before, after := Run(c, front, env), Run(c, steps, env);
      forall d | d in after.drafts
        ensures d.update !in after.updates && d.update in after.issued
      {
        DraftStaysUnsent(before, step, env, after, d);
      }
      forall f, u | f in after.flights && u in f.batch
        ensures MissedAnswered(after, f, u)
      {
        MissedStep(before, step, env, after, f, u);
      }
    }
  }

  /**
   * In every run, once a batch is finished, every tombstone of it that the node held when it took the
   * snapshot, or holds now, is acknowledged; a second delivery is answered like the first.
   */
  lemma FinishAcknowledges<K, V>(c: Cluster<K, V>, steps: seq<Step<K, V>>, env: Env, f: Flight<K, V>, u: Update<K, V>,
                                 before: Cluster<K, V>, after: Cluster<K, V>)
    requires Initial(c) && before == Run(c, steps, env) && Enabled(before, Step.Finish(f))
    requires after == Next(before, Step.Finish(f), env) && u in f.batch && u.1.state.Tombstone?
    ensures (u.0 in f.snapshot && f.snapshot[u.0] == u.1) || Holds(after, f.node, u) ==> Acknowledged(after, f.node, u)
  {
    var m := before.nodes[f.node].dated;
    if u.0 in f.snapshot && f.snapshot[u.0] == u.1 {
      HeldInSnapshotIsAcknowledged(f, m, u);
      FinishSendsReceipts(before, f, env, u);
    } else if Holds(after, f.node, u) {
      if Passes(f.snapshot, u) {
        AcknowledgedIff(f, m, u);
        FinishSendsReceipts(before, f, env, u);
      } else {
        MissedTombstonesAreAnswered(c, steps, env);
        MissedStep(before, Step.Finish(f), env, after, f, u);
      }
    }
  }

  /** Repeating the receipts covers every tombstone held, own ones included. */
  lemma ResendCoversHeld<K, V>(c: Cluster<K, V>, steps: seq<Step<K, V>>, env: Env, n: Peer, k: K)
    requires Initial(c) && Exists(Run(c, steps, env), n)
    requires k in Run(c, steps, env).nodes[n].dated && Run(c, steps, env).nodes[n].dated[k].state.Tombstone?
    ensures Acknowledged(Next(Run(c, steps, env), Step.Resend(n), env), n, (k, Run(c, steps, env).nodes[n].dated[k]))
  {
    IndexesAlwaysAgree(c, steps, env);
    assert Agrees(Run(c, steps, env).nodes[n]);
  }
}
