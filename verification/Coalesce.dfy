/**
 * Broadcast coalescing: local writes merge into a pending buffer, the caller that finds it empty
 * schedules the flush, and the flush broadcasts one entry per key. The window a caller read may be
 * stale by the time it takes the buffer's lock, so each call carries its own.
 */
module Coalesce {
  import opened Lww

  /**
   * `callers` counts the calls that found the buffer empty and have not yet spawned their flush,
   * `tasks` the flushes spawned and not yet run. `queued` and `emitted` are history: every write
   * routed to peers and everything handed to the broadcast, in order.
   */
  datatype Buffer<K, V> = Buffer(
    pending: Dated<K, V>,
    callers: nat,
    tasks: nat,
    queued: seq<Update<K, V>>,
    emitted: seq<Update<K, V>>)

  datatype Step<K, V> =
    | Queue(window: nat, batch: seq<Update<K, V>>)
    | Spawn
    | Flush(order: seq<Update<K, V>>)

  ghost function Items<K, V>(m: Dated<K, V>): set<Update<K, V>> {
    set k | k in m :: (k, m[k])
  }

  /** `order` lists the entries of `m`, each once. */
  ghost predicate Enumerates<K, V>(order: seq<Update<K, V>>, m: Dated<K, V>) {
    Elements(order) == Items(m) && |order| == |m|
  }

  function Queued<K, V>(b: Buffer<K, V>, window: nat, batch: seq<Update<K, V>>): Buffer<K, V> {
    if batch == [] then b
    else if window == 0 then b.(queued := b.queued + batch, emitted := b.emitted + batch)
    else b.(pending := MergeAll(b.pending, batch),
            callers := b.callers + (if |b.pending| == 0 then 1 else 0),
            queued := b.queued + batch)
  }

  function Spawned<K, V>(b: Buffer<K, V>): Buffer<K, V> {
    if b.callers == 0 then b else b.(callers := b.callers - 1, tasks := b.tasks + 1)
  }

  function Flushed<K, V>(b: Buffer<K, V>, order: seq<Update<K, V>>): Buffer<K, V> {
    if b.tasks == 0 then b else b.(pending := map[], tasks := b.tasks - 1, emitted := b.emitted + order)
  }

  ghost function Next<K, V>(b: Buffer<K, V>, step: Step<K, V>): Buffer<K, V> {
    match step
    case Queue(window, batch) => Queued(b, window, batch)
    case Spawn => Spawned(b)
    case Flush(order) => if Enumerates(order, b.pending) then Flushed(b, order) else b
  }

  ghost function Run<K, V>(steps: seq<Step<K, V>>): Buffer<K, V> {
    if steps == [] then Buffer(map[], 0, 0, [], [])
    else Next(Run(steps[..|steps| - 1]), steps[|steps| - 1])
  }

  class Coalescer<K(==), V> {
    var pending: Dated<K, V>
    var tasks: nat
    ghost var queued: seq<Update<K, V>>
    var emitted: seq<Update<K, V>>

    ghost function View(): Buffer<K, V>
      reads this
    {
      Buffer(pending, 0, tasks, queued, emitted)
    }

    constructor ()
      ensures View() == Buffer(map[], 0, 0, [], [])
    {
      pending, tasks, queued, emitted := map[], 0, [], [];
    }

    method QueueBroadcast(window: nat, batch: seq<Update<K, V>>)
      modifies this
      ensures View() == Spawned(Queued(old(View()), window, batch))
      ensures if window == 0 then pending == old(pending) && emitted == old(emitted) + batch else emitted == old(emitted)
    {
      if batch == [] {
        return;
      }
      queued := queued + batch;
      if window == 0 {
        emitted := emitted + batch;
        return;
      }
      var wasEmpty := |pending| == 0;
      for i := 0 to |batch|
        invariant pending == MergeAll(old(pending), batch[..i])
        invariant tasks == old(tasks) && queued == old(queued) + batch && emitted == old(emitted)
      {
        var (k, e) := batch[i];
        assert batch[..i + 1][..i] == batch[..i];
        if k in pending {
          pending := pending[k := Merge(pending[k], e)];
        } else {
          pending := pending[k := e];
        }
      }
      assert batch[..|batch|] == batch;
      if wasEmpty {
        tasks := tasks + 1;
      }
    }

    /** A spawned flush wakes up: take the whole buffer and broadcast it as one batch. */
    method RunFlush() returns (order: seq<Update<K, V>>)
      requires tasks > 0
      modifies this
      ensures Enumerates(order, old(pending)) && View() == Flushed(old(View()), order)
    {
      var taken := pending;
      pending := map[];
      tasks := tasks - 1;
      order := [];
      var left := taken.Keys;
      assert left <= taken.Keys;
      while left != {}
        invariant left <= taken.Keys
        invariant Elements(order) == (set k | k in taken && k !in left :: (k, taken[k]))
        invariant |order| + |left| == |taken|
        decreases |left|
      {
        var k :| k in left;
        assert (set x | x in taken && x !in left - {k} :: (x, taken[x]))
          == (set x | x in taken && x !in left :: (x, taken[x])) + {(k, taken[k])};
        order := order + [(k, taken[k])];
        left := left - {k};
      }
      emitted := emitted + order;
    }
  }

  // ---- Every interleaving ----

  /** Exactly one flush is owed when something is pending, and none otherwise. */
  ghost predicate OneFlushOwed<K, V>(b: Buffer<K, V>) {
    b.callers + b.tasks == if b.pending == map[] then 0 else 1
  }

  /** Everything handed out or still pending was queued. */
  ghost predicate NothingInvented<K, V>(b: Buffer<K, V>) {
    Elements(b.emitted) + Items(b.pending) <= Elements(b.queued)
  }

  ghost predicate Dominated<K, V>(u: Update<K, V>, others: set<Update<K, V>>) {
    exists v :: v in others && v.0 == u.0 && AtMost(u.1.stamp, v.1.stamp)
  }

  /** Every queued write is matched or outranked by an emitted or pending entry of its key. */
  ghost predicate NothingLost<K, V>(b: Buffer<K, V>) {
    AllDominated(Elements(b.queued), Elements(b.emitted) + Items(b.pending))
  }

  lemma MergeAllIsNonEmpty<K, V>(m: Dated<K, V>, batch: seq<Update<K, V>>)
    requires batch != []
    ensures MergeAll(m, batch) != map[]
  {
    assert batch[|batch| - 1].0 in MergeAll(m, batch);
  }

  lemma OneFlushStep<K, V>(b: Buffer<K, V>, step: Step<K, V>)
    requires OneFlushOwed(b)
    ensures OneFlushOwed(Next(b, step))
  {
    if step.Queue? && step.batch != [] {
      MergeAllIsNonEmpty(b.pending, step.batch);
    }
  }

  lemma {:induction false} MergeAllItems<K, V>(m: Dated<K, V>, batch: seq<Update<K, V>>)
    ensures Items(MergeAll(m, batch)) <= Items(m) + Elements(batch)
  {
    if batch != [] {
      var front, u := batch[..|batch| - 1], batch[|batch| - 1];
      MergeAllItems(m, front);
      assert batch == front + [u];
      assert Items(MergeAll(m, batch)) <= Items(MergeAll(m, front)) + {u};
    }
  }

  lemma NothingInventedStep<K, V>(b: Buffer<K, V>, step: Step<K, V>)
    requires NothingInvented(b)
    ensures NothingInvented(Next(b, step))
  {
    if step.Queue? {
      MergeAllItems(b.pending, step.batch);
      assert Elements(b.queued + step.batch) == Elements(b.queued) + Elements(step.batch);
      assert Elements(b.emitted + step.batch) == Elements(b.emitted) + Elements(step.batch);
    } else if step.Flush? {
      assert Elements(b.emitted + step.order) == Elements(b.emitted) + Elements(step.order);
      var none: Dated<K, V> := map[];
      assert Items(none) == {};
    }
  }

  lemma DominatedByMerge<K, V>(u: Update<K, V>, b: Buffer<K, V>, batch: seq<Update<K, V>>)
    requires Dominated(u, Elements(b.emitted) + Items(b.pending)) || u in batch
    ensures Dominated(u, Elements(b.emitted) + Items(MergeAll(b.pending, batch)))
  {
    var r := MergeAll(b.pending, batch);
    MergeAllAbove(b.pending, batch);
    if u in batch {
      assert (u.0, r[u.0]) in Items(r);
    } else {
      var v :| v in Elements(b.emitted) + Items(b.pending) && v.0 == u.0 && AtMost(u.1.stamp, v.1.stamp);
      if v !in Elements(b.emitted) {
        assert (u.0, r[u.0]) in Items(r);
      } else {
        assert v in Elements(b.emitted) + Items(r);
      }
    }
  }

  lemma DominatedByMore<K, V>(u: Update<K, V>, some: set<Update<K, V>>, more: set<Update<K, V>>)
    requires some <= more && (Dominated(u, some) || u in more)
    ensures Dominated(u, more)
  {
    if Dominated(u, some) {
      var v :| v in some && v.0 == u.0 && AtMost(u.1.stamp, v.1.stamp);
      assert v in more;
    } else {
      assert u in more;
    }
  }

  lemma NothingLostStep<K, V>(b: Buffer<K, V>, step: Step<K, V>)
    requires NothingLost(b)
    ensures NothingLost(Next(b, step))
  {
    var b' := Next(b, step);
    var before, after := Elements(b.emitted) + Items(b.pending), Elements(b'.emitted) + Items(b'.pending);
    forall u | u in b'.queued
      ensures Dominated(u, after)
    {
      match step
      case Queue(window, batch) =>
        assert u !in b.queued ==> u in batch;
        if window == 0 {
          assert Elements(b.emitted + batch) == Elements(b.emitted) + Elements(batch);
          DominatedByMore(u, before, after);
        } else {
          DominatedByMerge(u, b, batch);
        }
      case Spawn =>
      case Flush(order) =>
        assert Elements(b.emitted + order) == Elements(b.emitted) + Elements(order);
        DominatedByMore(u, before, after);
    }
  }

  /** The three facts hold after every interleaving of calls, spawns, flushes and retunings. */
  lemma {:induction false} CoalescingInvariants<K, V>(steps: seq<Step<K, V>>)
    ensures OneFlushOwed(Run(steps)) && NothingInvented(Run(steps)) && NothingLost(Run(steps))
  {
    if steps != [] {
      var front, step := steps[..|steps| - 1], steps[|steps| - 1];
      CoalescingInvariants(front);
      OneFlushStep(Run(front), step);
      NothingInventedStep(Run(front), step);
      NothingLostStep(Run(front), step);
    }
  }

  lemma WinnersDominate<K, V>(r: Dated<K, V>, some: set<Update<K, V>>, u: Update<K, V>)
    requires Winners(r, some) && Dominated(u, some)
    ensures u.0 in r && AtMost(u.1.stamp, r[u.0].stamp)
  {
    var v :| v in some && v.0 == u.0 && AtMost(u.1.stamp, v.1.stamp);
  }

  ghost predicate AllDominated<K, V>(all: set<Update<K, V>>, some: set<Update<K, V>>) {
    forall u {:trigger Dominated(u, some)} :: u in all ==> Dominated(u, some)
  }

  lemma DominatingSubsetWins<K, V>(r: Dated<K, V>, some: set<Update<K, V>>, all: set<Update<K, V>>)
    requires Winners(r, some) && some <= all && AllDominated(all, some)
    ensures Winners(r, all)
  {
    forall u | u in all
      ensures u.0 in r && AtMost(u.1.stamp, r[u.0].stamp)
    {
      assert Dominated(u, some);
      WinnersDominate(r, some, u);
    }
  }

  /**
   * Coalescing loses nothing: whatever a receiver held, taking the broadcasts of a run and the
   * flush still owed leaves it with the same map as taking every single write, stamps not colliding.
   */
  lemma ReceiversCannotTell<K, V>(steps: seq<Step<K, V>>, m: Dated<K, V>, order: seq<Update<K, V>>)
    requires Enumerates(order, Run(steps).pending) && CollisionFree(Items(m) + Elements(Run(steps).queued))
    ensures MergeAll(m, Run(steps).emitted + order) == MergeAll(m, Run(steps).queued)
  {
    var b := Run(steps);
    CoalescingInvariants(steps);
    BatchesMatchWrites(b, m, order);
  }

  lemma BatchesMatchWrites<K, V>(b: Buffer<K, V>, m: Dated<K, V>, order: seq<Update<K, V>>)
    requires NothingInvented(b) && NothingLost(b) && Enumerates(order, b.pending)
    requires CollisionFree(Items(m) + Elements(b.queued))
    ensures MergeAll(m, b.emitted + order) == MergeAll(m, b.queued)
  {
    var sent := b.emitted + order;
    var some, all := Items(m) + Elements(sent), Items(m) + Elements(b.queued);
    assert Elements(sent) == Elements(b.emitted) + Items(b.pending);
    assert AllDominated(all, some) by {
      forall u | u in all
        ensures Dominated(u, some)
      {
        DominatedByMore(u, Elements(sent), some);
      }
    }
    MergeAllKeepsWinners(m, sent, Items(m));
    MergeAllKeepsWinners(m, b.queued, Items(m));
    DominatingSubsetWins(MergeAll(m, sent), some, all);
    WinnersUnique(MergeAll(m, sent), MergeAll(m, b.queued), all);
  }

  // ---- What is emitted, and when ----

  /** The flush at the end of `front` finds its task spawned and takes the whole buffer. */
  ghost predicate TakesBuffer<K, V>(front: seq<Step<K, V>>, order: seq<Update<K, V>>) {
    Run(front).tasks > 0 && Enumerates(order, Run(front).pending)
  }

  /** The writes queued with a window since a flush last took the buffer. */
  ghost function Window<K, V>(steps: seq<Step<K, V>>): seq<Update<K, V>> {
    if steps == [] then []
    else
      var front, step := steps[..|steps| - 1], steps[|steps| - 1];
      match step
      case Queue(window, batch) => Window(front) + if window == 0 then [] else batch
      case Spawn => Window(front)
      case Flush(order) => if TakesBuffer(front, order) then [] else Window(front)
  }

  /** The batches queued without a window and the flushes, in order. */
  ghost function Broadcasts<K, V>(steps: seq<Step<K, V>>): seq<Update<K, V>> {
    if steps == [] then []
    else
      var front, step := steps[..|steps| - 1], steps[|steps| - 1];
      Broadcasts(front) +
      match step
      case Queue(window, batch) => if window == 0 then batch else []
      case Spawn => []
      case Flush(order) => if TakesBuffer(front, order) then order else []
  }

  /** The buffer holds, per key, the winner of exactly the writes of the current window. */
  lemma {:induction false} PendingIsTheWindow<K, V>(steps: seq<Step<K, V>>)
    ensures Winners(Run(steps).pending, Elements(Window(steps)))
  {
    if steps != [] {
      var front, step := steps[..|steps| - 1], steps[|steps| - 1];
      PendingIsTheWindow(front);
      if step.Queue? && step.window != 0 {
        MergeAllKeepsWinners(Run(front).pending, step.batch, Elements(Window(front)));
        assert Elements(Window(front) + step.batch) == Elements(Window(front)) + Elements(step.batch);
      }
    }
  }

  /** Over every run: what was emitted is the windowless batches and the flushes, and nothing else. */
  lemma {:induction false} EmittedIsBroadcasts<K, V>(steps: seq<Step<K, V>>)
    ensures Run(steps).emitted == Broadcasts(steps)
  {
    if steps != [] {
      EmittedIsBroadcasts(steps[..|steps| - 1]);
    }
  }

  /** A call with a window hands nothing to the broadcast; it only adds its writes to the window. */
  lemma WindowedCallIsSilent<K, V>(steps: seq<Step<K, V>>, window: nat, batch: seq<Update<K, V>>)
    requires window != 0
    ensures Run(steps + [Queue(window, batch)]).emitted == Run(steps).emitted
    ensures Window(steps + [Queue(window, batch)]) == Window(steps) + batch
  {
    assert (steps + [Queue(window, batch)])[..|steps|] == steps;
  }

  lemma {:induction false} DistinctKeys<K, V>(order: seq<Update<K, V>>, m: Dated<K, V>)
    requires Enumerates(order, m)
    ensures forall i, j :: 0 <= i < j < |order| ==> order[i].0 != order[j].0
  {
    var keys := seq(|order|, i requires 0 <= i < |order| => order[i].0);
    forall k | k in m
      ensures k in keys
    {
      assert (k, m[k]) in Elements(order);
      var i :| 0 <= i < |order| && order[i] == (k, m[k]);
      assert keys[i] == k;
    }
    AllDistinct(keys, m.Keys);
    assert forall i :: 0 <= i < |order| ==> keys[i] == order[i].0;
  }

  /** A list as long as a set it covers repeats nothing. */
  lemma {:induction false} AllDistinct<K>(keys: seq<K>, s: set<K>)
    requires |keys| == |s| && forall k :: k in s ==> k in keys
    ensures forall i, j :: 0 <= i < j < |keys| ==> keys[i] != keys[j]
  {
    if keys != [] {
      var n := |keys| - 1;
      assert keys == keys[..n] + [keys[n]];
      if keys[n] in keys[..n] {
        CoversAtMost(keys[..n], s);
      } else {
        if keys[n] !in s {
          CoversAtMost(keys[..n], s);
        }
        AllDistinct(keys[..n], s - {keys[n]});
      }
    }
  }

  lemma {:induction false} CoversAtMost<K>(keys: seq<K>, s: set<K>)
    requires forall k :: k in s ==> k in keys
    ensures |s| <= |keys|
  {
    if keys != [] {
      var n := |keys| - 1;
      assert keys == keys[..n] + [keys[n]];
      CoversAtMost(keys[..n], s - {keys[n]});
    } else {
      assert s == {};
    }
  }

  /**
   * A flush emits one entry per key written in the window it closes: a write of that window which no
   * other write of its key there outranks.
   */
  lemma FlushEmitsWinners<K, V>(front: seq<Step<K, V>>, order: seq<Update<K, V>>)
    requires TakesBuffer(front, order)
    ensures Run(front + [Flush(order)]).emitted == Run(front).emitted + order
    ensures forall i, j :: 0 <= i < j < |order| ==> order[i].0 != order[j].0
    ensures forall u :: u in order ==> u in Window(front)
    ensures forall u, v :: u in order && v in Window(front) && v.0 == u.0 ==> AtMost(v.1.stamp, u.1.stamp)
    ensures forall v :: v in Window(front) ==> exists u :: u in order && u.0 == v.0
  {
    var m := Run(front).pending;
    assert (front + [Flush(order)])[..|front|] == front;
    PendingIsTheWindow(front);
    DistinctKeys(order, m);
    forall u | u in order
      ensures u.0 in m && u.1 == m[u.0]
    {
      assert u in Elements(order);
    }
    forall v | v in Window(front)
      ensures exists u :: u in order && u.0 == v.0
    {
      assert v in Elements(Window(front));
      assert (v.0, m[v.0]) in Elements(order);
    }
  }
}
