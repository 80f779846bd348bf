/**
 * What every step of the scheduler keeps, message by message: how many attempts a chunk may take,
 * when it has arrived, and which chunks the retransmission queue holds.
 */
module StreamInvariant {
  import opened Arithmetic
  import opened StreamModel
  import opened StreamQueue

  // ---- How many attempts a chunk takes ----

  /** The first attempt of a unit that is not lost. */
  ghost function First(env: Env, u: Unit): nat {
    FirstFrom((a: nat) => env.link.lost(u, a), 1, env.maxAttempts)
  }

  lemma FirstFacts(env: Env, u: Unit, a: nat)
    ensures First(env, u) >= 1
    ensures 1 <= a < First(env, u) ==> env.link.lost(u, a)
    ensures First(env, u) < env.maxAttempts ==> !env.link.lost(u, First(env, u))
  {
    var lost := (x: nat) => env.link.lost(u, x);
    if 1 <= a < First(env, u) {
      assert lost(a);
    }
  }

  /** The greatest first arrival among the first `k` chunks of a message. */
  ghost function Cap(env: Env, m: nat, k: nat): nat {
    if k == 0 then 0
    else if First(env, Unit(m, k - 1)) > Cap(env, m, k - 1) then First(env, Unit(m, k - 1))
    else Cap(env, m, k - 1)
  }

  lemma {:induction false} CapFacts(env: Env, m: nat, k: nat, b: nat)
    ensures forall c :: 0 <= c < k ==> First(env, Unit(m, c)) <= Cap(env, m, k)
    ensures (forall c :: 0 <= c < k ==> First(env, Unit(m, c)) <= b) ==> Cap(env, m, k) <= b
  {
    if k > 0 {
      CapFacts(env, m, k - 1, b);
    }
  }

  predicate WholeMessage(env: Env, m: nat)
    requires m < |env.messages|
  {
    Datagram(env, m) && !Selective(env, m)
  }

  /** Attempts a chunk ends up with: its own first arrival, or its message's last under whole-message recovery. */
  ghost function Limit(env: Env, u: Unit): nat
    requires HasUnit(env.messages, u)
  {
    if WholeMessage(env, u.message) then Cap(env, u.message, |env.messages[u.message].chunks|) else First(env, u)
  }

  /** Every chunk, and the reports of every message that needs one, get through before the source's attempt bound. */
  ghost predicate Reachable(env: Env) {
    && Sane(env)
    && (forall u :: HasUnit(env.messages, u) ==> First(env, u) < env.maxAttempts)
    && (forall m :: 0 <= m < |env.messages| && Selective(env, m) && Cap(env, m, |env.messages[m].chunks|) > 1 ==>
          NackAttempts(env, m) < env.maxAttempts)
  }

  // ---- The invariant ----

  function Chunks(env: Env, m: nat): nat
    requires m < |env.messages|
  {
    |env.messages[m].chunks|
  }

  ghost predicate UnitOk(env: Env, s: State, u: Unit)
    requires Shaped(env, s) && HasUnit(env.messages, u)
  {
    && Tries(s.air, u) <= Limit(env, u)
    && (u in s.air.arrival <==> First(env, u) <= Tries(s.air, u))
    && (Tries(s.air, u) > 0 <==> u.chunk < s.queue.next[u.message])
    && (Tries(s.air, u) > 0 <==> u in s.air.firstSend)
  }

  /** A whole-message batch on top of `b` attempts: its queued chunks still have `b`, the others one more. */
  ghost predicate InBatch(env: Env, s: State, m: nat, b: nat)
    requires m < |env.messages|
  {
    && 1 <= b < Cap(env, m, Chunks(env, m))
    && forall c :: 0 <= c < Chunks(env, m) ==>
      Tries(s.air, Unit(m, c)) == if Queued(s.queue.tasks, Unit(m, c)) then b else b + 1
  }

  ghost predicate Level(env: Env, s: State, m: nat, b: nat)
    requires m < |env.messages|
  {
    && 1 <= b <= Cap(env, m, Chunks(env, m))
    && forall c :: 0 <= c < Chunks(env, m) ==> Tries(s.air, Unit(m, c)) == b
  }

  /**
   * After `r` reports, a selective batch runs or is over: queued chunks have `r` attempts and need more,
   * the others have one more, unless they arrived before.
   */
  ghost predicate InRound(env: Env, s: State, m: nat, r: nat)
    requires m < |env.messages|
  {
    forall c :: 0 <= c < Chunks(env, m) ==>
      if Queued(s.queue.tasks, Unit(m, c)) then Tries(s.air, Unit(m, c)) == r < First(env, Unit(m, c))
      else Tries(s.air, Unit(m, c)) == Min(First(env, Unit(m, c)), r + 1)
  }

  /** Only selective messages report, only once all was sent, and fewer times than their slowest chunk is tried. */
  ghost predicate ReportsOk(env: Env, s: State, m: nat)
    requires Shaped(env, s) && m < |env.messages|
  {
    && (s.queue.reports[m] > 0 ==> Selective(env, m) && s.queue.next[m] == Chunks(env, m))
    && (s.queue.next[m] == Chunks(env, m) ==> s.queue.reports[m] < Cap(env, m, Chunks(env, m)))
  }

  /** The queue holds exactly the stream chunks that were sent and have not arrived. */
  ghost predicate StreamQueueOk(env: Env, s: State, m: nat)
    requires Shaped(env, s) && m < |env.messages|
  {
    forall c :: 0 <= c < Chunks(env, m) ==>
      (Queued(s.queue.tasks, Unit(m, c)) <==> c < s.queue.next[m] && Unit(m, c) !in s.air.arrival)
  }

  /** The tasks of a datagram message number its pending count, and belong to one running batch. */
  ghost predicate BatchOk(env: Env, s: State, m: nat)
    requires Shaped(env, s) && m < |env.messages|
  {
    && s.queue.pending[m] == CountFor(s.queue.tasks, m)
    && (s.queue.next[m] < Chunks(env, m) ==>
      s.queue.pending[m] == 0 && forall c :: 0 <= c < s.queue.next[m] ==> Tries(s.air, Unit(m, c)) == 1)
    && (Selective(env, m) && s.queue.next[m] == Chunks(env, m) ==> InRound(env, s, m, s.queue.reports[m]))
    && (!Selective(env, m) && s.queue.next[m] == Chunks(env, m) && s.queue.pending[m] != 0 ==>
      exists b :: InBatch(env, s, m, b))
    && (!Selective(env, m) && s.queue.next[m] == Chunks(env, m) && s.queue.pending[m] == 0 ==>
      exists b :: Level(env, s, m, b))
  }

  /** The invariant of a message, except that a finished batch may still have to be followed up. */
  ghost predicate Settled(env: Env, s: State, m: nat)
    requires Shaped(env, s) && m < |env.messages|
  {
    && s.queue.next[m] <= Chunks(env, m) && ReportsOk(env, s, m)
    && (forall c :: 0 <= c < Chunks(env, m) ==> UnitOk(env, s, Unit(m, c)))
    && (if Datagram(env, m) then BatchOk(env, s, m) else StreamQueueOk(env, s, m))
  }

  ghost predicate MessageOk(env: Env, s: State, m: nat)
    requires Shaped(env, s) && m < |env.messages|
  {
    && Settled(env, s, m)
    && (Datagram(env, m) && s.queue.next[m] == Chunks(env, m) && s.queue.pending[m] == 0 ==>
      AllArrived(s.air, m, Chunks(env, m)))
  }

  predicate TasksHaveUnits(env: Env, s: State) {
    forall i :: 0 <= i < |s.queue.tasks| ==> HasUnit(env.messages, s.queue.tasks[i].unit)
  }

  ghost predicate QueueOk(env: Env, s: State) {
    Shaped(env, s) && TasksHaveUnits(env, s) && Distinct(s.queue.tasks)
  }

  ghost predicate Inv(env: Env, s: State) {
    QueueOk(env, s) && forall m :: 0 <= m < |env.messages| ==> MessageOk(env, s, m)
  }

  // ---- Frames ----

  ghost predicate SameUnit(s: State, t: State, u: Unit) {
    && Tries(s.air, u) == Tries(t.air, u)
    && (u in s.air.arrival <==> u in t.air.arrival) && (u in s.air.firstSend <==> u in t.air.firstSend)
    && (Queued(s.queue.tasks, u) <==> Queued(t.queue.tasks, u))
  }

  ghost predicate SameMessage(env: Env, s: State, t: State, m: nat)
    requires Shaped(env, s) && Shaped(env, t) && m < |env.messages|
  {
    && s.queue.next[m] == t.queue.next[m] && s.queue.pending[m] == t.queue.pending[m] && s.queue.reports[m] == t.queue.reports[m]
    && CountFor(s.queue.tasks, m) == CountFor(t.queue.tasks, m)
    && forall c :: 0 <= c < Chunks(env, m) ==> SameUnit(s, t, Unit(m, c))
  }

  lemma FrameBatch(env: Env, s: State, t: State, m: nat)
    requires Shaped(env, s) && Shaped(env, t) && m < |env.messages| && SameMessage(env, s, t, m) && BatchOk(env, s, m)
    ensures BatchOk(env, t, m)
  {
    forall c | 0 <= c < Chunks(env, m)
      ensures SameUnit(s, t, Unit(m, c))
    {
    }
    if Selective(env, m) && s.queue.next[m] == Chunks(env, m) {
      assert InRound(env, t, m, s.queue.reports[m]);
    }
    if exists b :: InBatch(env, s, m, b) {
      var b :| InBatch(env, s, m, b);
      assert InBatch(env, t, m, b);
    }
    if exists b :: Level(env, s, m, b) {
      var b :| Level(env, s, m, b);
      assert Level(env, t, m, b);
    }
  }

  lemma FrameMessage(env: Env, s: State, t: State, m: nat)
    requires Shaped(env, s) && Shaped(env, t) && m < |env.messages| && SameMessage(env, s, t, m) && MessageOk(env, s, m)
    ensures MessageOk(env, t, m)
  {
    forall c | 0 <= c < Chunks(env, m)
      ensures SameUnit(s, t, Unit(m, c)) && UnitOk(env, s, Unit(m, c)) && UnitOk(env, t, Unit(m, c))
    {
    }
    if Datagram(env, m) {
      FrameBatch(env, s, t, m);
    }
  }
}
