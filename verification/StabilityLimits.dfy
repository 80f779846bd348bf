/**
 * Runs outside the conditions of the stability and convergence theorems: a write whose stamp and
 * insertion are split, a peer stamp beyond the drift budget, and collection on receipts alone. Each
 * exists for any two nodes of any cluster, any key and any values. Then, for every reachable cluster,
 * exactly which collected keys can come back from what is still in circulation.
 */
module StabilityLimits {
  import opened Lww
  import Clock
  import opened Replica
  import opened Cluster
  import opened Stability
  import opened Convergence

  ghost predicate TwoNodes<K, V>(c: Cluster<K, V>, a: Peer, b: Peer) {
    a != b && Exists(c, a) && Exists(c, b)
  }

  ghost function WriteAt<K, V>(n: Peer, k: K, physical: nat, logical: nat, state: State<V>): Update<K, V> {
    (k, Entry(Stamp(Hlc(physical, logical), n), state))
  }

  ghost predicate Holds<K, V>(c: Cluster<K, V>, n: Peer, u: Update<K, V>) {
    n in c.nodes && u.0 in c.nodes[n].dated && c.nodes[n].dated[u.0] == u.1
  }

  lemma LoneUpdate<K, V>(m: Dated<K, V>, u: Update<K, V>)
    ensures Screen(m, [u]) == (if Passes(m, u) then [u] else [])
    ensures MergeAll(m, [u]) == MergeInto(m, u)
    ensures u.1.state.Tombstone? && Passes(m, u) ==> MergeAcks(m, [u]) == [(u.0, Digest(u.1))]
  {
    assert [u][..0] == [];
    assert Screen(m, [u][..0]) == [] && MergeAcks(m, [u][..0]) == [];
    assert MergeAll(m, [u][..0]) == m;
  }

  lemma LoneReading<K, V>(last: Hlc, u: Update<K, V>, pt: nat, drift: nat)
    ensures ObserveAll(last, [u], [pt], drift) == Clock.ObserveReading(last, pt, u.1.stamp, drift)
  {
    assert [u][..0] == [] && [pt][..0] == [];
    assert ObserveAll(last, [u][..0], [pt][..0], drift) == last;
  }

  /** Any run; one whose writes are atomic and stamps within budget; one that stamps nothing new. */
  datatype Manner = Freely | Prudently | Quietly

  ghost predicate Suits<K, V>(step: Step<K, V>, env: Env, manner: Manner) {
    match manner
    case Freely => true
    case Prudently => Prudent(step, env)
    case Quietly => !step.Mint? && !step.Write?
  }

  /** Some run in that manner leads from `c` to `c'`. */
  ghost predicate Leads<K(!new), V(!new)>(c: Cluster<K, V>, c': Cluster<K, V>, env: Env, manner: Manner) {
    exists steps :: c' == Run(c, steps, env) && forall step :: step in steps ==> Suits(step, env, manner)
  }

  lemma LeadsNowhere<K(!new), V(!new)>(c: Cluster<K, V>, env: Env, manner: Manner)
    ensures Leads(c, c, env, manner)
  {
    var none: seq<Step<K, V>> := [];
    assert c == Run(c, none, env);
  }

  lemma LeadsOn<K(!new), V(!new)>(c: Cluster<K, V>, c': Cluster<K, V>, step: Step<K, V>, env: Env, manner: Manner)
    requires Leads(c, c', env, manner) && Suits(step, env, manner)
    ensures Leads(c, Next(c', step, env), env, manner)
  {
    var steps :| c' == Run(c, steps, env) && forall s :: s in steps ==> Suits(s, env, manner);
    var longer := steps + [step];
    assert longer[..|steps|] == steps;
    assert Next(c', step, env) == Run(c, longer, env);
  }

  lemma ReceiveOne<K(!new), V(!new)>(start: Cluster<K, V>, c: Cluster<K, V>, n: Peer, u: Update<K, V>, pt: nat,
                                     env: Env, manner: Manner) returns (c': Cluster<K, V>)
    requires Leads(start, c, env, manner) && (manner == Prudently ==> Clock.WithinBudget(pt, u.1.stamp, env.drift))
    requires Exists(c, n) && u in c.updates
    ensures Leads(start, c', env, manner)
    ensures var clock := Clock.ObserveReading(c.nodes[n].clock, pt, u.1.stamp, env.drift);
      c' == c.(nodes := c.nodes[n := c.nodes[n].(clock := clock)], flights := c.flights + {Flight(n, c.nodes[n].dated, [u])})
  {
    LoneReading(c.nodes[n].clock, u, pt, env.drift);
    var step := Step.Receive(n, [u], [pt]);
    c' := Next(c, step, env);
    LeadsOn(start, c, step, env, manner);
  }

  lemma FinishOne<K(!new), V(!new)>(start: Cluster<K, V>, c: Cluster<K, V>, n: Peer, u: Update<K, V>,
                                    env: Env, manner: Manner) returns (c': Cluster<K, V>)
    requires Leads(start, c, env, manner) && Exists(c, n) && Flight(n, c.nodes[n].dated, [u]) in c.flights
    ensures Leads(start, c', env, manner) && c'.drafts == c.drafts && c'.updates == c.updates
    ensures Exists(c', n) && c'.absorbed == c.absorbed[n := c.absorbed[n] + {u}] && c'.nodes == c.nodes[n := c'.nodes[n]]
    ensures c'.nodes[n].dated == if Passes(c.nodes[n].dated, u) then c.nodes[n].dated[u.0 := u.1] else c.nodes[n].dated
    ensures c'.nodes[n].clock == c.nodes[n].clock
    ensures u.1.state.Tombstone? && Passes(c.nodes[n].dated, u) ==> Receipt(n, u.0, Digest(u.1)) in c'.receipts
  {
    LoneUpdate(c.nodes[n].dated, u);
    var f := Flight(n, c.nodes[n].dated, [u]);
    c' := Next(c, Step.Finish(f), env);
    LeadsOn(start, c, Step.Finish(f), env, manner);
    assert Elements(f.batch) == {u};
    if u.1.state.Tombstone? && Passes(c.nodes[n].dated, u) {
      assert (u.0, Digest(u.1)) in FlightAcks(f, c.nodes[n].dated);
    }
  }

  /** Receiving and finishing a one-update batch with nothing in between. */
  lemma DeliverOne<K(!new), V(!new)>(start: Cluster<K, V>, c: Cluster<K, V>, n: Peer, u: Update<K, V>, pt: nat,
                                     env: Env, manner: Manner) returns (c': Cluster<K, V>)
    requires Leads(start, c, env, manner) && (manner == Prudently ==> Clock.WithinBudget(pt, u.1.stamp, env.drift))
    requires Exists(c, n) && u in c.updates
    ensures Leads(start, c', env, manner) && c'.drafts == c.drafts && c'.updates == c.updates
    ensures Exists(c', n) && c'.absorbed == c.absorbed[n := c.absorbed[n] + {u}] && c'.nodes == c.nodes[n := c'.nodes[n]]
    ensures c'.nodes[n].dated == if Passes(c.nodes[n].dated, u) then c.nodes[n].dated[u.0 := u.1] else c.nodes[n].dated
    ensures c'.nodes[n].clock == Clock.ObserveReading(c.nodes[n].clock, pt, u.1.stamp, env.drift)
    ensures u.1.state.Tombstone? && Passes(c.nodes[n].dated, u) ==> Receipt(n, u.0, Digest(u.1)) in c'.receipts
  {
    var received := ReceiveOne(start, c, n, u, pt, env, manner);
    c' := FinishOne(start, received, n, u, env, manner);
  }

  /** A write at a reading past the node's clock. */
  lemma WriteOne<K(!new), V(!new)>(start: Cluster<K, V>, c: Cluster<K, V>, n: Peer, k: K, state: State<V>, pt: nat, env: Env, manner: Manner)
    returns (c': Cluster<K, V>)
    requires Leads(start, c, env, manner) && Exists(c, n) && c.nodes[n].clock.physical < pt && manner != Quietly
    ensures Leads(start, c', env, manner) && c'.drafts == c.drafts && c'.updates == c.updates + {WriteAt(n, k, pt, 0, state)}
    ensures Exists(c', n) && c'.absorbed == c.absorbed[n := c.absorbed[n] + {WriteAt(n, k, pt, 0, state)}]
    ensures c'.nodes == c.nodes[n := c'.nodes[n]] && c'.nodes[n].clock == Hlc(pt, 0) && c'.nodes[n].members == c.nodes[n].members
    ensures c'.nodes[n].dated == c.nodes[n].dated[k := WriteAt(n, k, pt, 0, state).1]
  {
    LeadsOn(start, c, Step.Write(n, k, state, pt), env, manner);
    c' := Next(c, Step.Write(n, k, state, pt), env);
  }

  lemma CommitDraft<K(!new), V(!new)>(start: Cluster<K, V>, c: Cluster<K, V>, d: Draft<K, V>, env: Env, manner: Manner) returns (c': Cluster<K, V>)
    requires Leads(start, c, env, manner) && d in c.drafts && Exists(c, d.node)
    ensures Leads(start, c', env, manner) && c' == Inserted(c, d.node, d.update).(drafts := c.drafts - {d})
  {
    LeadsOn(start, c, Step.Commit(d), env, manner);
    c' := Next(c, Step.Commit(d), env);
  }

  // ---- A write whose stamp and insertion are split ----

  lemma MintFirst<K(!new), V(!new)>(c: Cluster<K, V>, a: Peer, b: Peer, k: K, v: V, env: Env) returns (c': Cluster<K, V>)
    requires Initial(c) && TwoNodes(c, a, b)
    ensures Leads(c, c', env, Freely) && TwoNodes(c', a, b) && c'.nodes[b] == c.nodes[b] && c'.absorbed == c.absorbed
    ensures c'.nodes[a].dated == map[] && Draft(a, WriteAt(a, k, 1, 0, Present(v))) in c'.drafts
  {
    LeadsNowhere(c, env, Freely);
    c' := Next(c, Step.Mint(a, k, Present(v), 1), env);
    LeadsOn(c, c, Step.Mint(a, k, Present(v), 1), env, Freely);
    assert Draft(a, WriteAt(a, k, 1, 0, Present(v))) in c'.drafts;
  }

  lemma MintAndDelete<K(!new), V(!new)>(c: Cluster<K, V>, a: Peer, b: Peer, k: K, v: V, env: Env) returns (c': Cluster<K, V>)
    requires Initial(c) && TwoNodes(c, a, b)
    ensures Leads(c, c', env, Freely) && TwoNodes(c', a, b)
    ensures c'.nodes[a].dated == map[] && c'.absorbed[a] == {}
    ensures var deletion := WriteAt(b, k, 9, 0, Tombstone);
      deletion in c'.updates && c'.nodes[b].dated == map[k := deletion.1] && c'.absorbed[b] == {deletion}
    ensures Draft(a, WriteAt(a, k, 1, 0, Present(v))) in c'.drafts
  {
    var minted := MintFirst(c, a, b, k, v, env);
    c' := WriteOne(c, minted, b, k, Tombstone, 9, env, Freely);
  }

  /**
   * Node `a` stamps a write, merges a newer deletion by node `b`, and then inserts the write over
   * the tombstone: the key is alive again, below the stamp of its deletion.
   */
  lemma SplitWriteRevivesADeletedKey<K(!new), V(!new)>(c: Cluster<K, V>, a: Peer, b: Peer, k: K, v: V, env: Env)
    returns (deleted: Cluster<K, V>, revived: Cluster<K, V>)
    requires Initial(c) && TwoNodes(c, a, b) && !env.gateOpen
    ensures Leads(c, deleted, env, Freely) && Holds(deleted, a, WriteAt(b, k, 9, 0, Tombstone))
    ensures Leads(deleted, revived, env, Freely) && Holds(revived, a, WriteAt(a, k, 1, 0, Present(v)))
  {
    var minted := MintAndDelete(c, a, b, k, v, env);
    deleted := DeliverOne(c, minted, a, WriteAt(b, k, 9, 0, Tombstone), 9, env, Freely);
    LeadsNowhere(deleted, env, Freely);
    revived := CommitDraft(deleted, deleted, Draft(a, WriteAt(a, k, 1, 0, Present(v))), env, Freely);
  }

  /**
   * The same race breaks convergence: when `b` then takes `a`'s write, both nodes have absorbed the
   * write and the deletion, and `a` shows the value while `b` shows the tombstone.
   */
  lemma SplitWriteBreaksConvergence<K(!new), V(!new)>(c: Cluster<K, V>, a: Peer, b: Peer, k: K, v: V, env: Env)
    returns (apart: Cluster<K, V>)
    requires Initial(c) && TwoNodes(c, a, b) && !env.gateOpen
    ensures Leads(c, apart, env, Freely) && TwoNodes(apart, a, b) && apart.absorbed[a] == apart.absorbed[b]
    ensures Holds(apart, a, WriteAt(a, k, 1, 0, Present(v))) && Holds(apart, b, WriteAt(b, k, 9, 0, Tombstone))
  {
    var deletion, write := WriteAt(b, k, 9, 0, Tombstone), WriteAt(a, k, 1, 0, Present(v));
    var minted := MintAndDelete(c, a, b, k, v, env);
    var deleted := DeliverOne(c, minted, a, deletion, 9, env, Freely);
    var revived := CommitDraft(c, deleted, Draft(a, write), env, Freely);
    apart := DeliverOne(c, revived, b, write, 9, env, Freely);
    assert apart.absorbed[a] == {deletion, write} && apart.absorbed[b] == {deletion, write};
  }

  lemma MintWriteAndDelete<K(!new), V(!new)>(c: Cluster<K, V>, a: Peer, b: Peer, k: K, v: V, w: V, env: Env) returns (c': Cluster<K, V>)
    requires Initial(c) && TwoNodes(c, a, b)
    ensures Leads(c, c', env, Freely) && TwoNodes(c', a, b) && c'.nodes[a].dated == map[]
    ensures WriteAt(b, k, 5, 0, Present(w)) in c'.updates && WriteAt(b, k, 9, 0, Tombstone) in c'.updates
    ensures Draft(a, WriteAt(a, k, 1, 0, Present(v))) in c'.drafts
  {
    var minted := MintFirst(c, a, b, k, v, env);
    var written := WriteOne(c, minted, b, k, Present(w), 5, env, Freely);
    c' := WriteOne(c, written, b, k, Tombstone, 9, env, Freely);
  }

  /** An update screened out against an entry that has since gone below it is lost to the merge. */
  lemma LoweredEntryMissesTheJoin<K(!new), V>(snapshot: Dated<K, V>, current: Dated<K, V>, u: Update<K, V>)
    requires !Passes(snapshot, u) && u.0 in current && Less(current[u.0].stamp, u.1.stamp)
    ensures !ScreenIsSafe(snapshot, current, [u])
    ensures MergeAll(current, Screen(snapshot, [u])) != MergeAll(current, [u])
  {
    assert u in [u];
    TwoPhaseLinearizes(snapshot, current, [u]);
  }

  /**
   * The same race makes the screen unsafe: `b`'s value is screened out against `b`'s own later deletion,
   * `a`'s older write then replaces that deletion, and finishing the batch misses the join.
   */
  lemma SplitWriteMakesTheScreenUnsafe<K(!new), V(!new)>(c: Cluster<K, V>, a: Peer, b: Peer, k: K, v: V, w: V, env: Env)
    returns (late: Cluster<K, V>, f: Flight<K, V>)
    requires Initial(c) && TwoNodes(c, a, b) && !env.gateOpen
    ensures Leads(c, late, env, Freely) && f in late.flights && Exists(late, a) && f.node == a
    ensures !ScreenIsSafe(f.snapshot, late.nodes[a].dated, f.batch)
    ensures Next(late, Step.Finish(f), env).nodes[a].dated != MergeAll(late.nodes[a].dated, f.batch)
  {
    late, f := LateFlight(c, a, b, k, v, w, env);
    LoweredEntryMissesTheJoin(f.snapshot, late.nodes[a].dated, WriteAt(b, k, 5, 0, Present(w)));
  }

  lemma LateFlight<K(!new), V(!new)>(c: Cluster<K, V>, a: Peer, b: Peer, k: K, v: V, w: V, env: Env)
    returns (late: Cluster<K, V>, f: Flight<K, V>)
    requires Initial(c) && TwoNodes(c, a, b)
    ensures Leads(c, late, env, Freely) && f in late.flights && Exists(late, a)
    ensures f == Flight(a, map[k := WriteAt(b, k, 9, 0, Tombstone).1], [WriteAt(b, k, 5, 0, Present(w))])
    ensures late.nodes[a].dated == map[k := WriteAt(a, k, 1, 0, Present(v)).1]
  {
    var minted := MintWriteAndDelete(c, a, b, k, v, w, env);
    var deleted := DeliverOne(c, minted, a, WriteAt(b, k, 9, 0, Tombstone), 9, env, Freely);
    var received := ReceiveOne(c, deleted, a, WriteAt(b, k, 5, 0, Present(w)), 9, env, Freely);
    f := Flight(a, received.nodes[a].dated, [WriteAt(b, k, 5, 0, Present(w))]);
    late := CommitDraft(c, received, Draft(a, WriteAt(a, k, 1, 0, Present(v))), env, Freely);
  }

  // ---- A peer stamp beyond the drift budget ----

  /**
   * The stored stamp of `b`'s deletion is kept as received while `a`'s clock is clamped, so `a`'s
   * next write, stamp and insertion together, goes below the tombstone it replaces.
   */
  lemma ClampedClockRevivesADeletedKey<K(!new), V(!new)>(c: Cluster<K, V>, a: Peer, b: Peer, k: K, v: V, env: Env)
    returns (deleted: Cluster<K, V>, revived: Cluster<K, V>)
    requires Initial(c) && TwoNodes(c, a, b) && !env.gateOpen
    ensures Leads(c, deleted, env, Freely) && Holds(deleted, a, WriteAt(b, k, env.drift + 9, 0, Tombstone))
    ensures revived == Next(deleted, Step.Write(a, k, Present(v), 1), env)
    ensures Holds(revived, a, WriteAt(a, k, env.drift + 1, 1, Present(v)))
  {
    LeadsNowhere(c, env, Freely);
    var issued := WriteOne(c, c, b, k, Tombstone, env.drift + 9, env, Freely);
    deleted := DeliverOne(c, issued, a, WriteAt<K, V>(b, k, env.drift + 9, 0, Tombstone), 1, env, Freely);
    assert Minted(deleted, a, k, Present(v), 1) == WriteAt(a, k, env.drift + 1, 1, Present(v));
    revived := Next(deleted, Step.Write(a, k, Present(v), 1), env);
  }

  // ---- Collection on receipts alone ----

  ghost predicate StableDeletion<K, V>(c: Cluster<K, V>, a: Peer, b: Peer, deletion: Update<K, V>) {
    && Holds(c, a, deletion) && c.nodes[a].members == {b}
    && IsTombstoneStable(c.nodes[a], deletion.0, Digest(deletion.1))
  }

  lemma WriteThenDelete<K(!new), V(!new)>(c: Cluster<K, V>, a: Peer, b: Peer, k: K, v: V, env: Env) returns (c': Cluster<K, V>)
    requires Initial(c) && TwoNodes(c, a, b)
    ensures Leads(c, c', env, Prudently) && TwoNodes(c', a, b) && c'.nodes[b].dated == map[]
    ensures c'.nodes[a].dated == map[k := WriteAt<K, V>(a, k, 2, 0, Tombstone).1] && c'.nodes[a].members == {b}
    ensures WriteAt(a, k, 1, 0, Present(v)) in c'.updates && WriteAt(a, k, 2, 0, Tombstone) in c'.updates
  {
    LeadsNowhere(c, env, Prudently);
    var written := WriteOne(c, c, a, k, Present(v), 1, env, Prudently);
    var deleted := WriteOne(c, written, a, k, Tombstone, 2, env, Prudently);
    c' := Next(deleted, Step.Admit(a, b), env);
    LeadsOn(c, deleted, Step.Admit(a, b), env, Prudently);
  }

  lemma Acknowledge<K(!new), V(!new)>(start: Cluster<K, V>, c: Cluster<K, V>, a: Peer, b: Peer, k: K, env: Env)
    returns (recorded: Cluster<K, V>)
    requires Leads(start, c, env, Prudently) && TwoNodes(c, a, b) && c.nodes[a].members == {b}
    requires c.nodes[a].dated == map[k := WriteAt<K, V>(a, k, 2, 0, Tombstone).1]
    requires Receipt(b, k, Digest(WriteAt<K, V>(a, k, 2, 0, Tombstone).1)) in c.receipts
    ensures Leads(start, recorded, env, Prudently) && StableDeletion(recorded, a, b, WriteAt(a, k, 2, 0, Tombstone))
    ensures TwoNodes(recorded, a, b) && recorded.updates == c.updates && recorded.nodes[a].dated == c.nodes[a].dated
  {
    var ack: Ack<K, V> := (k, Digest(WriteAt<K, V>(a, k, 2, 0, Tombstone).1));
    assert [ack][..0] == [];
    assert RecordAcks(c.nodes[a], b, [ack][..0]) == c.nodes[a];
    recorded := Next(c, Step.TakeReceipts(a, b, [ack]), env);
    LeadsOn(start, c, Step.TakeReceipts(a, b, [ack]), env, Prudently);
    assert recorded.nodes[a] == RecordAck(c.nodes[a], b, ack);
  }

  lemma CollectStable<K(!new), V(!new)>(c: Cluster<K, V>, a: Peer, b: Peer, k: K, env: Env) returns (c': Cluster<K, V>)
    requires TwoNodes(c, a, b) && env.gateOpen && StableDeletion(c, a, b, WriteAt(a, k, 2, 0, Tombstone))
    requires c.nodes[a].dated == map[k := WriteAt<K, V>(a, k, 2, 0, Tombstone).1]
    ensures Leads(c, c', env, Prudently) && TwoNodes(c', a, b) && c'.nodes[a].dated == map[] && c'.updates == c.updates
  {
    var collect := Step.Collect(a, k, WriteAt<K, V>(a, k, 2, 0, Tombstone).1.stamp, 10, 0);
    c' := Next(c, collect, env);
    LeadsNowhere(c, env, Prudently);
    LeadsOn(c, c, collect, env, Prudently);
    assert c'.nodes[a].dated == map[];
  }

  /**
   * Why the gate is closed: in a run whose writes are atomic and whose stamps are within budget, a
   * tombstone acknowledged by every member is collected, and a delayed copy of the older write
   * then brings the value back.
   */
  lemma ReceiptsAloneAllowResurrection<K(!new), V(!new)>(c: Cluster<K, V>, a: Peer, b: Peer, k: K, v: V, env: Env)
    returns (stable: Cluster<K, V>, revived: Cluster<K, V>)
    requires Initial(c) && TwoNodes(c, a, b) && env.gateOpen
    ensures Leads(c, stable, env, Prudently) && StableDeletion(stable, a, b, WriteAt(a, k, 2, 0, Tombstone))
    ensures Leads(stable, revived, env, Prudently) && Holds(revived, a, WriteAt(a, k, 1, 0, Present(v)))
  {
    var deleted := WriteThenDelete(c, a, b, k, v, env);
    var received := DeliverOne(c, deleted, b, WriteAt(a, k, 2, 0, Tombstone), 2, env, Prudently);
    stable := Acknowledge(c, received, a, b, k, env);
    var collected := CollectStable(stable, a, b, k, env);
    revived := DeliverOne(stable, collected, a, WriteAt(a, k, 1, 0, Present(v)), 3, env, Prudently);
  }

  // ---- Which collected keys can come back ----

  /** Every entry held and every batch pending was sent, and every draft belongs to a node of the cluster. */
  ghost predicate Backed<K, V>(c: Cluster<K, V>) {
    && c.nodes.Keys == c.absorbed.Keys
    && (forall n :: n in c.nodes ==> HeldIn(c.nodes[n].dated, c.updates))
    && (forall f :: f in c.flights ==> Elements(f.batch) <= c.updates)
    && (forall d :: d in c.drafts ==> d.node in c.nodes)
  }

  lemma EntriesStayBacked<K, V>(c: Cluster<K, V>, step: Step<K, V>, env: Env, n: Peer, c': Cluster<K, V>)
    requires Backed(c) && n in c.nodes && c' == Next(c, step, env)
    ensures n in c'.nodes && HeldIn(c'.nodes[n].dated, c'.updates)
  {
    assert HeldIn(c.nodes[n].dated, c.updates);
    if Enabled(c, step) && step.Finish? && step.flight.node == n {
      FinishStaysWithin(step.flight, c.nodes[n].dated, c.updates);
    }
  }

  lemma FlightStaysBacked<K, V>(c: Cluster<K, V>, step: Step<K, V>, env: Env, f: Flight<K, V>, c': Cluster<K, V>)
    requires Backed(c) && c' == Next(c, step, env) && f in c'.flights
    ensures Elements(f.batch) <= c'.updates
  {
    assert c.updates <= c'.updates;
    if f !in c.flights {
      assert step.Receive?;
    }
  }

  lemma NodesStay<K, V>(c: Cluster<K, V>, step: Step<K, V>, env: Env, c': Cluster<K, V>)
    requires c.nodes.Keys == c.absorbed.Keys && c' == Next(c, step, env)
    ensures c'.nodes.Keys == c.nodes.Keys == c'.absorbed.Keys
  {
  }

  lemma DraftsStayBacked<K, V>(c: Cluster<K, V>, step: Step<K, V>, env: Env, d: Draft<K, V>, c': Cluster<K, V>)
    requires Backed(c) && c' == Next(c, step, env) && d in c'.drafts
    ensures d.node in c.nodes
  {
    if d !in c.drafts {
      assert step.Mint?;
    }
  }

  lemma BackedStep<K, V>(c: Cluster<K, V>, step: Step<K, V>, env: Env, c': Cluster<K, V>)
    requires Backed(c) && c' == Next(c, step, env)
    ensures Backed(c')
  {
    NodesStay(c, step, env, c');
    forall d | d in c'.drafts
      ensures d.node in c'.nodes
    {
      DraftsStayBacked(c, step, env, d, c');
    }
    forall n | n in c'.nodes
      ensures HeldIn(c'.nodes[n].dated, c'.updates)
    {
      EntriesStayBacked(c, step, env, n, c');
    }
    forall f | f in c'.flights
      ensures Elements(f.batch) <= c'.updates
    {
      FlightStaysBacked(c, step, env, f, c');
    }
  }

  lemma {:induction false} ReachableIsBacked<K, V>(c: Cluster<K, V>, steps: seq<Step<K, V>>, env: Env)
    requires Backed(c)
    ensures Backed(Run(c, steps, env))
  {
    if steps != [] {
      var front := steps[..|steps| - 1];
      ReachableIsBacked(c, front, env);
      BackedStep(Run(c, front, env), steps[|steps| - 1], env, Run(c, steps, env));
    }
  }

  /** An update of `k` below `s` was sent, or is stamped and not yet inserted. */
  ghost predicate OlderCirculates<K, V>(c: Cluster<K, V>, k: K, s: Stamp) {
    || (exists u :: u in c.updates && u.0 == k && Less(u.1.stamp, s))
    || (exists d :: d in c.drafts && d.update.0 == k && Less(d.update.1.stamp, s))
  }

  ghost predicate HeldBelow<K, V>(c: Cluster<K, V>, n: Peer, k: K, s: Stamp) {
    n in c.nodes && k in c.nodes[n].dated && Less(c.nodes[n].dated[k].stamp, s)
  }

  /** Without new stamps, `k` can appear at `n` below `s`. */
  ghost predicate CanComeBack<K(!new), V(!new)>(c: Cluster<K, V>, n: Peer, k: K, s: Stamp, env: Env) {
    exists c' :: Leads(c, c', env, Quietly) && HeldBelow(c', n, k, s)
  }

  lemma QuietStep<K, V>(c: Cluster<K, V>, step: Step<K, V>, env: Env, k: K, s: Stamp)
    requires Backed(c) && Suits(step, env, Quietly) && !OlderCirculates(c, k, s)
    ensures !OlderCirculates(Next(c, step, env), k, s)
  {
  }

  lemma {:induction false} QuietRun<K, V>(c: Cluster<K, V>, steps: seq<Step<K, V>>, env: Env, k: K, s: Stamp)
    requires Backed(c) && !OlderCirculates(c, k, s) && forall step :: step in steps ==> Suits(step, env, Quietly)
    ensures !OlderCirculates(Run(c, steps, env), k, s)
  {
    if steps != [] {
      var front := steps[..|steps| - 1];
      QuietRun(c, front, env, k, s);
      ReachableIsBacked(c, front, env);
      QuietStep(Run(c, front, env), steps[|steps| - 1], env, k, s);
    }
  }

  lemma SentUpdateComesBack<K(!new), V(!new)>(start: Cluster<K, V>, c: Cluster<K, V>, n: Peer, u: Update<K, V>, s: Stamp, env: Env)
    requires Leads(start, c, env, Quietly) && Exists(c, n) && u in c.updates && u.0 !in c.nodes[n].dated && Less(u.1.stamp, s)
    ensures CanComeBack(start, n, u.0, s, env)
  {
    var c' := DeliverOne(start, c, n, u, 0, env, Quietly);
    assert HeldBelow(c', n, u.0, s);
  }

  lemma DraftComesBack<K(!new), V(!new)>(c: Cluster<K, V>, n: Peer, d: Draft<K, V>, s: Stamp, env: Env)
    requires Backed(c) && Exists(c, n) && d in c.drafts && d.update.0 !in c.nodes[n].dated && Less(d.update.1.stamp, s)
    ensures CanComeBack(c, n, d.update.0, s, env)
  {
    LeadsNowhere(c, env, Quietly);
    var c' := CommitDraft(c, c, d, env, Quietly);
    if d.node == n {
      assert HeldBelow(c', n, d.update.0, s);
    } else {
      SentUpdateComesBack(c, c', n, d.update, s, env);
    }
  }

  /**
   * Why receipts are not enough, exactly: in any reachable cluster, a node that no longer holds a key
   * can see it again below the stamp `s` of its collected tombstone, without any new write, if and
   * only if an update of the key below `s` was ever sent or is a stamped write not yet inserted.
   */
  lemma ComesBackIffOlderCirculates<K(!new), V(!new)>(c: Cluster<K, V>, steps: seq<Step<K, V>>, env: Env, n: Peer, k: K, s: Stamp)
    requires Initial(c) && Exists(Run(c, steps, env), n) && k !in Run(c, steps, env).nodes[n].dated
    ensures CanComeBack(Run(c, steps, env), n, k, s, env) <==> OlderCirculates(Run(c, steps, env), k, s)
  {
    var now := Run(c, steps, env);
    ReachableIsBacked(c, steps, env);
    if u :| u in now.updates && u.0 == k && Less(u.1.stamp, s) {
      LeadsNowhere(now, env, Quietly);
      SentUpdateComesBack(now, now, n, u, s, env);
    } else if d :| d in now.drafts && d.update.0 == k && Less(d.update.1.stamp, s) {
      DraftComesBack(now, n, d, s, env);
    } else {
      NeverComesBack(now, n, k, s, env);
    }
  }

  lemma NeverComesBack<K(!new), V(!new)>(c: Cluster<K, V>, n: Peer, k: K, s: Stamp, env: Env)
    requires Backed(c) && !OlderCirculates(c, k, s)
    ensures !CanComeBack(c, n, k, s, env)
  {
    forall c' | Leads(c, c', env, Quietly)
      ensures !HeldBelow(c', n, k, s)
    {
      var steps :| c' == Run(c, steps, env) && forall step :: step in steps ==> Suits(step, env, Quietly);
      QuietRun(c, steps, env, k, s);
      ReachableIsBacked(c, steps, env);
    }
  }
}
