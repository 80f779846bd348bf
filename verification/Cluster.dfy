/**
 * A cluster of replicas over a network that loses, repeats and reorders messages. Everything ever
 * sent stays deliverable, any number of times, to any node; a message that is never picked is lost.
 * A local write may be split between stamping and inserting, and a received batch between its
 * snapshot and its merge, with any other step in between.
 */
module Cluster {
  import opened Lww
  import opened Clock
  import opened Replica

  datatype Receipt<K, V> = Receipt(from: Peer, key: K, version: Version<V>)

  /** A received batch whose hooks are running: screened against `snapshot`, not yet merged. */
  datatype Flight<K, V> = Flight(node: Peer, snapshot: Dated<K, V>, batch: seq<Update<K, V>>)

  /** A local write that has its stamp and has not yet taken the write lock. */
  datatype Draft<K, V> = Draft(node: Peer, update: Update<K, V>)

  /**
   * `issued` and `absorbed` are history: every update ever stamped, and for each node the updates
   * it wrote or whose batch it finished.
   */
  datatype Cluster<K(==), V(==)> = Cluster(
    nodes: map<Peer, Node<K, V>>,
    updates: set<Update<K, V>>,
    receipts: set<Receipt<K, V>>,
    flights: set<Flight<K, V>>,
    drafts: set<Draft<K, V>>,
    issued: set<Update<K, V>>,
    absorbed: map<Peer, set<Update<K, V>>>)

  datatype Env = Env(drift: nat, gateOpen: bool)

  datatype Step<K, V> =
    | Mint(node: Peer, key: K, state: State<V>, pt: nat)
    | Commit(draft: Draft<K, V>)
    | Write(node: Peer, key: K, state: State<V>, pt: nat)
    | Receive(node: Peer, batch: seq<Update<K, V>>, readings: seq<nat>)
    | Finish(flight: Flight<K, V>)
    | TakeReceipts(node: Peer, from: Peer, acks: seq<Ack<K, V>>)
    | Resend(node: Peer)
    | Advertise(node: Peer, key: K)
    | Admit(node: Peer, peer: Peer)
    | Retire(node: Peer, peer: Peer)
    | Collect(node: Peer, key: K, expected: Stamp, now: int, retention: nat)

  ghost predicate Exists<K, V>(c: Cluster<K, V>, n: Peer) {
    n in c.nodes && n in c.absorbed
  }

  ghost predicate Enabled<K, V>(c: Cluster<K, V>, step: Step<K, V>) {
    match step
    case Mint(n, _, _, _) => Exists(c, n)
    case Commit(d) => d in c.drafts && Exists(c, d.node)
    case Write(n, _, _, _) => Exists(c, n)
    case Receive(n, batch, readings) =>
      Exists(c, n) && |batch| == |readings| && forall u :: u in batch ==> u in c.updates
    case Finish(f) => f in c.flights && Exists(c, f.node)
    case TakeReceipts(n, from, acks) =>
      Exists(c, n) && forall a :: a in acks ==> Receipt(from, a.0, a.1) in c.receipts
    case Resend(n) => Exists(c, n)
    case Advertise(n, k) => Exists(c, n) && k in c.nodes[n].dated
    case Admit(n, _) => Exists(c, n)
    case Retire(n, _) => Exists(c, n)
    case Collect(n, _, _, _, _) => Exists(c, n)
  }

  /** The update a write by `n` would carry now. */
  ghost function Minted<K, V>(c: Cluster<K, V>, n: Peer, k: K, state: State<V>, pt: nat): Update<K, V>
    requires n in c.nodes
  {
    (k, Entry(Stamp(MintReading(c.nodes[n].clock, pt), n), state))
  }

  ghost function Stamped<K, V>(c: Cluster<K, V>, n: Peer, u: Update<K, V>): Cluster<K, V>
    requires n in c.nodes
  {
    c.(nodes := c.nodes[n := c.nodes[n].(clock := u.1.stamp.hlc)], issued := c.issued + {u})
  }

  /** Insert without comparing stamps, then broadcast. */
  ghost function Inserted<K, V>(c: Cluster<K, V>, n: Peer, u: Update<K, V>): Cluster<K, V>
    requires Exists(c, n)
  {
    c.(nodes := c.nodes[n := Put(c.nodes[n], u.0, u.1)],
       updates := c.updates + {u},
       absorbed := c.absorbed[n := c.absorbed[n] + {u}])
  }

  ghost function FlightAcks<K, V>(f: Flight<K, V>, m: Dated<K, V>): seq<Ack<K, V>> {
    ScreenAcks(f.snapshot, f.batch) + MergeAcks(m, Screen(f.snapshot, f.batch))
  }

  ghost function Receipts<K, V>(from: Peer, acks: seq<Ack<K, V>>): set<Receipt<K, V>> {
    set a | a in acks :: Receipt(from, a.0, a.1)
  }

  ghost function HeldReceipts<K, V>(from: Peer, n: Node<K, V>): set<Receipt<K, V>> {
    set k | k in n.live && k in n.dated && n.dated[k].state.Tombstone? :: Receipt(from, k, Digest(n.dated[k]))
  }

  ghost function Fire<K, V>(c: Cluster<K, V>, step: Step<K, V>, env: Env): Cluster<K, V>
    requires Enabled(c, step)
  {
    match step
    case Mint(n, k, state, pt) =>
      var u := Minted(c, n, k, state, pt);
      Stamped(c, n, u).(drafts := c.drafts + {Draft(n, u)})
    case Commit(d) => Inserted(c, d.node, d.update).(drafts := c.drafts - {d})
    case Write(n, k, state, pt) =>
      var u := Minted(c, n, k, state, pt);
      Inserted(Stamped(c, n, u), n, u)
    case Receive(n, batch, readings) =>
      var node := c.nodes[n];
      c.(nodes := c.nodes[n := node.(clock := ObserveAll(node.clock, batch, readings, env.drift))],
         flights := c.flights + {Flight(n, node.dated, batch)})
    case Finish(f) =>
      var node := c.nodes[f.node];
      c.(nodes := c.nodes[f.node := MergePutAll(node, Screen(f.snapshot, f.batch))],
         receipts := c.receipts + Receipts(f.node, FlightAcks(f, node.dated)),
         absorbed := c.absorbed[f.node := c.absorbed[f.node] + Elements(f.batch)])
    case TakeReceipts(n, from, acks) => c.(nodes := c.nodes[n := RecordAcks(c.nodes[n], from, acks)])
    case Resend(n) => c.(receipts := c.receipts + HeldReceipts(n, c.nodes[n]))
    case Advertise(n, k) => c.(updates := c.updates + {(k, c.nodes[n].dated[k])})
    case Admit(n, p) => c.(nodes := c.nodes[n := c.nodes[n].(members := c.nodes[n].members + {p})])
    case Retire(n, p) => c.(nodes := c.nodes[n := Decommission(c.nodes[n], p)])
    case Collect(n, k, expected, now, retention) =>
      if env.gateOpen then c.(nodes := c.nodes[n := CollectCandidate(c.nodes[n], k, expected, now, retention)]) else c
  }

  /**
   * A step that is not enabled changes nothing, so any list of steps is a run. Flights are never used
   * up, so the model also has runs that finish a batch again.
   */
  ghost function Next<K, V>(c: Cluster<K, V>, step: Step<K, V>, env: Env): Cluster<K, V> {
    if Enabled(c, step) then Fire(c, step, env) else c
  }

  ghost function Run<K, V>(c: Cluster<K, V>, steps: seq<Step<K, V>>, env: Env): Cluster<K, V> {
    if steps == [] then c
    else Next(Run(c, steps[..|steps| - 1], env), steps[|steps| - 1], env)
  }

  ghost predicate Initial<K, V>(c: Cluster<K, V>) {
    && c.absorbed.Keys == c.nodes.Keys
    && (forall n :: n in c.nodes ==>
          c.nodes[n] == Node(map[], map[], {}, map[], {}, Hlc(0, 0), false) && c.absorbed[n] == {})
    && c.updates == {} && c.receipts == {} && c.flights == {} && c.drafts == {} && c.issued == {}
  }

  // ---- What a step may do to the entries a node holds ----

  /** The step overwrites an entry with a smaller stamp. */
  ghost predicate Overwrites<K, V>(c: Cluster<K, V>, n: Peer, u: Update<K, V>)
    requires n in c.nodes
  {
    u.0 in c.nodes[n].dated && Less(u.1.stamp, c.nodes[n].dated[u.0].stamp)
  }

  ghost predicate Stale<K, V>(c: Cluster<K, V>, step: Step<K, V>) {
    Enabled(c, step) &&
    match step
    case Commit(d) => Overwrites(c, d.node, d.update)
    case Write(n, k, state, pt) => Overwrites(c, n, Minted(c, n, k, state, pt))
    case _ => false
  }

  ghost predicate NeverLower<K, V>(c: Cluster<K, V>, c': Cluster<K, V>) {
    forall n :: n in c.nodes ==> n in c'.nodes && Above(c.nodes[n].dated, c'.nodes[n].dated)
  }

  /** An insert lowers a held entry exactly when it overwrites a greater stamp. */
  lemma InsertLowersIffOverwrites<K, V>(c: Cluster<K, V>, n: Peer, u: Update<K, V>, c': Cluster<K, V>)
    requires Exists(c, n) && c' == Inserted(c, n, u)
    ensures NeverLower(c, c') <==> !Overwrites(c, n, u)
  {
    if Overwrites(c, n, u) {
      assert !Above(c.nodes[n].dated, c'.nodes[n].dated);
    }
  }

  /** With collection closed, a step lowers some held entry exactly when it is a stale insert. */
  lemma StepLowersIffStale<K, V>(c: Cluster<K, V>, step: Step<K, V>, env: Env)
    requires !env.gateOpen
    ensures NeverLower(c, Next(c, step, env)) <==> !Stale(c, step)
  {
    if Enabled(c, step) {
      match step
      case Finish(f) => MergeAllAbove(c.nodes[f.node].dated, Screen(f.snapshot, f.batch));
      case Commit(d) => InsertLowersIffOverwrites(c, d.node, d.update, Inserted(c, d.node, d.update));
      case Write(n, k, state, pt) =>
        var u := Minted(c, n, k, state, pt);
        InsertLowersIffOverwrites(Stamped(c, n, u), n, u, Next(c, step, env));
      case _ =>
    }
  }

  /** No step of the run is a stale insert. */
  ghost predicate Fresh<K, V>(c: Cluster<K, V>, steps: seq<Step<K, V>>, env: Env) {
    forall i :: 0 <= i < |steps| ==> FreshAt(c, steps, env, i)
  }

  ghost predicate FreshAt<K, V>(c: Cluster<K, V>, steps: seq<Step<K, V>>, env: Env, i: nat)
    requires i < |steps|
  {
    !Stale(Run(c, steps[..i], env), steps[i])
  }

  ghost predicate MonotoneAt<K, V>(c: Cluster<K, V>, steps: seq<Step<K, V>>, env: Env, i: nat)
    requires i < |steps|
  {
    NeverLower(Run(c, steps[..i], env), Run(c, steps[..i + 1], env))
  }

  lemma RunStep<K, V>(c: Cluster<K, V>, steps: seq<Step<K, V>>, env: Env, i: nat)
    requires i < |steps|
    ensures Run(c, steps[..i + 1], env) == Next(Run(c, steps[..i], env), steps[i], env)
  {
    assert steps[..i + 1][..i] == steps[..i];
  }

  /** A run is free of stale inserts exactly when no step of it lowers a held entry. */
  lemma FreshIffMonotone<K, V>(c: Cluster<K, V>, steps: seq<Step<K, V>>, env: Env)
    requires !env.gateOpen
    ensures Fresh(c, steps, env) <==> forall i :: 0 <= i < |steps| ==> MonotoneAt(c, steps, env, i)
  {
    forall i | 0 <= i < |steps|
      ensures FreshAt(c, steps, env, i) <==> MonotoneAt(c, steps, env, i)
    {
      RunStep(c, steps, env, i);
      StepLowersIffStale(Run(c, steps[..i], env), steps[i], env);
    }
  }

  // ---- No resurrection, one node, key and stamp at a time ----

  ghost predicate HeldAtLeast<K, V>(c: Cluster<K, V>, n: Peer, k: K, s: Stamp) {
    n in c.nodes && k in c.nodes[n].dated && AtMost(s, c.nodes[n].dated[k].stamp)
  }

  /** What the step inserts, and where, whatever that node holds; at most one element. */
  ghost function Insertion<K, V>(c: Cluster<K, V>, step: Step<K, V>): set<Draft<K, V>> {
    if !Enabled(c, step) then {}
    else
      match step
      case Commit(d) => {d}
      case Write(n, k, state, pt) => {Draft(n, Minted(c, n, k, state, pt))}
      case _ => {}
  }

  ghost predicate Lowers<K, V>(d: Draft<K, V>, n: Peer, k: K, s: Stamp) {
    d.node == n && d.update.0 == k && Less(d.update.1.stamp, s)
  }

  /** The step inserts a stamp below `s` for that key at that node. */
  ghost predicate InsertsBelow<K, V>(c: Cluster<K, V>, step: Step<K, V>, n: Peer, k: K, s: Stamp) {
    exists d :: d in Insertion(c, step) && Lowers(d, n, k, s)
  }

  /** It does so at a node that holds the key at `s` or above. */
  ghost predicate Undercuts<K, V>(c: Cluster<K, V>, step: Step<K, V>, n: Peer, k: K, s: Stamp) {
    HeldAtLeast(c, n, k, s) && InsertsBelow(c, step, n, k, s)
  }

  lemma InsertionReplaces<K, V>(c: Cluster<K, V>, step: Step<K, V>, env: Env, d: Draft<K, V>, c': Cluster<K, V>)
    requires d in Insertion(c, step) && c' == Next(c, step, env)
    ensures Insertion(c, step) == {d} && d.node in c.nodes && c'.nodes.Keys == c.nodes.Keys
    ensures c'.nodes[d.node].dated == c.nodes[d.node].dated[d.update.0 := d.update.1]
    ensures forall n :: n in c.nodes && n != d.node ==> c'.nodes[n] == c.nodes[n]
  {
  }

  lemma OtherStepsInsertNothing<K, V>(c: Cluster<K, V>, step: Step<K, V>)
    requires Insertion(c, step) == {}
    ensures !Stale(c, step) && (Enabled(c, step) ==> !step.Commit? && !step.Write?)
  {
  }

  lemma OtherStepsRaise<K, V>(c: Cluster<K, V>, step: Step<K, V>, env: Env, n: Peer, c': Cluster<K, V>)
    requires Insertion(c, step) == {} && !env.gateOpen && n in c.nodes && c' == Next(c, step, env)
    ensures n in c'.nodes && Above(c.nodes[n].dated, c'.nodes[n].dated)
  {
    OtherStepsInsertNothing(c, step);
    StepLowersIffStale(c, step, env);
    assert NeverLower(c, c');
  }

  lemma PutHeldIff<K, V>(c: Cluster<K, V>, d: Draft<K, V>, n: Peer, k: K, s: Stamp, c': Cluster<K, V>)
    requires HeldAtLeast(c, n, k, s) && d.node in c.nodes && c'.nodes.Keys == c.nodes.Keys
    requires c'.nodes[d.node].dated == c.nodes[d.node].dated[d.update.0 := d.update.1]
    requires forall m :: m in c.nodes && m != d.node ==> c'.nodes[m] == c.nodes[m]
    ensures HeldAtLeast(c', n, k, s) <==> !Lowers(d, n, k, s)
  {
  }

  /** A step takes a held key below `s` exactly when it undercuts it. */
  lemma HeldUnlessUndercut<K, V>(c: Cluster<K, V>, step: Step<K, V>, env: Env, n: Peer, k: K, s: Stamp)
    requires !env.gateOpen && HeldAtLeast(c, n, k, s)
    ensures HeldAtLeast(Next(c, step, env), n, k, s) <==> !Undercuts(c, step, n, k, s)
  {
    if d :| d in Insertion(c, step) {
      InsertionReplaces(c, step, env, d, Next(c, step, env));
      PutHeldIff(c, d, n, k, s, Next(c, step, env));
    } else {
      OtherStepsRaise(c, step, env, n, Next(c, step, env));
    }
  }

  ghost predicate HeldAfter<K, V>(c: Cluster<K, V>, steps: seq<Step<K, V>>, env: Env, j: nat, n: Peer, k: K, s: Stamp)
    requires j <= |steps|
  {
    HeldAtLeast(Run(c, steps[..j], env), n, k, s)
  }

  ghost predicate UndercutBy<K, V>(c: Cluster<K, V>, steps: seq<Step<K, V>>, env: Env, t: nat, n: Peer, k: K, s: Stamp)
    requires t < |steps|
  {
    Undercuts(Run(c, steps[..t], env), steps[t], n, k, s)
  }

  /** No step from `from` up to `to` undercuts `(n, k, s)`. */
  ghost predicate Unharmed<K, V>(c: Cluster<K, V>, steps: seq<Step<K, V>>, env: Env, from: nat, to: nat, n: Peer, k: K, s: Stamp)
    requires to <= |steps|
  {
    forall t :: from <= t < to ==> !UndercutBy(c, steps, env, t, n, k, s)
  }

  lemma HeldNext<K, V>(c: Cluster<K, V>, steps: seq<Step<K, V>>, env: Env, t: nat, n: Peer, k: K, s: Stamp)
    requires !env.gateOpen && t < |steps| && HeldAfter(c, steps, env, t, n, k, s)
    ensures HeldAfter(c, steps, env, t + 1, n, k, s) <==> !UndercutBy(c, steps, env, t, n, k, s)
  {
    RunStep(c, steps, env, t);
    HeldUnlessUndercut(Run(c, steps[..t], env), steps[t], env, n, k, s);
  }

  lemma {:induction false} HeldWhileUnharmed<K, V>(c: Cluster<K, V>, steps: seq<Step<K, V>>, env: Env, i: nat, j: nat, n: Peer, k: K, s: Stamp)
    requires !env.gateOpen && i <= j <= |steps| && HeldAfter(c, steps, env, i, n, k, s) && Unharmed(c, steps, env, i, j, n, k, s)
    ensures HeldAfter(c, steps, env, j, n, k, s)
  {
    if i < j {
      HeldWhileUnharmed(c, steps, env, i, j - 1, n, k, s);
      HeldNext(c, steps, env, j - 1, n, k, s);
    }
  }

  ghost predicate BelowBy<K, V>(c: Cluster<K, V>, steps: seq<Step<K, V>>, env: Env, t: nat, n: Peer, k: K, s: Stamp)
    requires t < |steps|
  {
    InsertsBelow(Run(c, steps[..t], env), steps[t], n, k, s)
  }

  /**
   * No resurrection, exactly: from any point at which a node holds a key at `s` or above, tombstones
   * included, it holds it at `s` or above ever after if and only if it inserts nothing below `s` for
   * that key. What happens at other nodes and to other keys does not matter.
   */
  lemma NoResurrection<K, V>(c: Cluster<K, V>, steps: seq<Step<K, V>>, env: Env, i: nat, n: Peer, k: K, s: Stamp)
    requires !env.gateOpen && i <= |steps| && HeldAfter(c, steps, env, i, n, k, s)
    ensures (forall j :: i <= j <= |steps| ==> HeldAfter(c, steps, env, j, n, k, s))
       <==> (forall t :: i <= t < |steps| ==> !BelowBy(c, steps, env, t, n, k, s))
  {
    if forall j :: i <= j <= |steps| ==> HeldAfter(c, steps, env, j, n, k, s) {
      forall t | i <= t < |steps|
        ensures !BelowBy(c, steps, env, t, n, k, s)
      {
        assert HeldAfter(c, steps, env, t, n, k, s) && HeldAfter(c, steps, env, t + 1, n, k, s);
        HeldNext(c, steps, env, t, n, k, s);
      }
    }
    if forall t :: i <= t < |steps| ==> !BelowBy(c, steps, env, t, n, k, s) {
      assert forall t :: i <= t < |steps| && UndercutBy(c, steps, env, t, n, k, s) ==> BelowBy(c, steps, env, t, n, k, s);
      forall j | i <= j <= |steps|
        ensures HeldAfter(c, steps, env, j, n, k, s)
      {
        HeldWhileUnharmed(c, steps, env, i, j, n, k, s);
      }
    }
  }

  /** Over a whole run: once held, always held, if and only if no step undercuts. */
  lemma OnceHeldAlwaysHeld<K, V>(c: Cluster<K, V>, steps: seq<Step<K, V>>, env: Env, n: Peer, k: K, s: Stamp)
    requires !env.gateOpen
    ensures (forall i, j :: 0 <= i <= j <= |steps| && HeldAfter(c, steps, env, i, n, k, s) ==> HeldAfter(c, steps, env, j, n, k, s))
       <==> Unharmed(c, steps, env, 0, |steps|, n, k, s)
  {
    if Unharmed(c, steps, env, 0, |steps|, n, k, s) {
      forall i, j | 0 <= i <= j <= |steps| && HeldAfter(c, steps, env, i, n, k, s)
        ensures HeldAfter(c, steps, env, j, n, k, s)
      {
        HeldWhileUnharmed(c, steps, env, i, j, n, k, s);
      }
    } else {
      var t :| 0 <= t < |steps| && UndercutBy(c, steps, env, t, n, k, s);
      assert HeldAfter(c, steps, env, t, n, k, s);
      HeldNext(c, steps, env, t, n, k, s);
    }
  }

  /** A stale insert is one that undercuts what its node holds: the local conditions add up to the global one. */
  lemma StaleIffUndercuts<K(!new), V>(c: Cluster<K, V>, step: Step<K, V>)
    ensures Stale(c, step) <==> exists n, k, s :: Undercuts(c, step, n, k, s)
  {
    if Stale(c, step) {
      var d := if step.Commit? then step.draft else Draft(step.node, Minted(c, step.node, step.key, step.state, step.pt));
      assert d in Insertion(c, step);
      assert Lowers(d, d.node, d.update.0, c.nodes[d.node].dated[d.update.0].stamp);
      assert Undercuts(c, step, d.node, d.update.0, c.nodes[d.node].dated[d.update.0].stamp);
    }
  }

  // ---- Index agreement over runs ----

  ghost predicate IndexesAgree<K, V>(c: Cluster<K, V>) {
    forall n :: n in c.nodes ==> Agrees(c.nodes[n])
  }

  lemma IndexesAgreeStep<K, V>(c: Cluster<K, V>, step: Step<K, V>, env: Env)
    requires IndexesAgree(c)
    ensures IndexesAgree(Next(c, step, env))
  {
  }

  /** After every step of every run the projection and the tombstone index agree with the map. */
  lemma {:induction false} IndexesAlwaysAgree<K, V>(c: Cluster<K, V>, steps: seq<Step<K, V>>, env: Env)
    requires Initial(c)
    ensures IndexesAgree(Run(c, steps, env))
  {
    if steps != [] {
      var front := steps[..|steps| - 1];
      IndexesAlwaysAgree(c, front, env);
      IndexesAgreeStep(Run(c, front, env), steps[|steps| - 1], env);
    }
  }
}
