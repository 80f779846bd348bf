/** Every step of the scheduler keeps the invariant. */
module StreamSteps {
  import opened Arithmetic
  import opened StreamModel
  import opened StreamQueue
  import opened StreamInvariant

  // ---- One transmission ----

  /** Unit `u` gets one more attempt; nothing else moves, except that a lost stream chunk is queued again. */
  lemma TransmitEffect(env: Env, s: State, u: Unit, retransmission: bool, v: Unit)
    requires Sane(env) && HasUnit(env.messages, u)
    ensures var t := Transmit(env, s, u, retransmission);
      && t.queue.next == s.queue.next && t.queue.pending == s.queue.pending && t.queue.reports == s.queue.reports
      && Tries(t.air, v) == Tries(s.air, v) + (if v == u then 1 else 0)
      && (v in t.air.firstSend <==> v in s.air.firstSend || v == u)
      && (v in t.air.arrival <==> v in s.air.arrival || (v == u && !env.link.lost(u, Tries(s.air, u) + 1)))
      && (Queued(t.queue.tasks, v)
          <==> Queued(s.queue.tasks, v)
               || (v == u && !Datagram(env, u.message) && env.link.lost(u, Tries(s.air, u) + 1)))
  {
    var task := Task(u, s.free + Serialization(env.link, WireLen(env, u)) + env.link.rtt);
    AppendQueued(s.queue.tasks, [task], v);
    OneQueued(task, v);
  }

  lemma TransmitCounts(env: Env, s: State, u: Unit, retransmission: bool, m: nat)
    requires Sane(env) && HasUnit(env.messages, u) && (Datagram(env, u.message) || m != u.message)
    ensures CountFor(Transmit(env, s, u, retransmission).queue.tasks, m) == CountFor(s.queue.tasks, m)
  {
    var task := Task(u, s.free + Serialization(env.link, WireLen(env, u)) + env.link.rtt);
    CountAppend(s.queue.tasks, [task], m);
    CountOne(task, m);
  }

  lemma TransmitQueueOk(env: Env, s: State, u: Unit, retransmission: bool)
    requires Sane(env) && QueueOk(env, s) && HasUnit(env.messages, u) && !Queued(s.queue.tasks, u)
    ensures QueueOk(env, Transmit(env, s, u, retransmission))
  {
    var task := Task(u, s.free + Serialization(env.link, WireLen(env, u)) + env.link.rtt);
    AppendDistinct(s.queue.tasks, [task]);
  }

  /** One more attempt keeps "arrived iff the first arrival has been tried". */
  lemma ArrivalTracks(env: Env, u: Unit, tries: nat, arrived: bool)
    requires Reachable(env) && HasUnit(env.messages, u) && (arrived <==> First(env, u) <= tries)
    ensures (arrived || !env.link.lost(u, tries + 1)) <==> First(env, u) <= tries + 1
  {
    FirstFacts(env, u, tries + 1);
  }

  // ---- Scheduling a recovery batch ----

  lemma LevelIsCap(env: Env, s: State, m: nat, b: nat)
    requires Shaped(env, s) && m < |env.messages| && Settled(env, s, m) && WholeMessage(env, m) && Level(env, s, m, b)
    ensures AllArrived(s.air, m, Chunks(env, m)) <==> b == Cap(env, m, Chunks(env, m))
  {
    CapFacts(env, m, Chunks(env, m), b);
    forall c | 0 <= c < Chunks(env, m)
      ensures Unit(m, c) in s.air.arrival <==> First(env, Unit(m, c)) <= b
    {
      assert UnitOk(env, s, Unit(m, c));
    }
  }

  /** Appending a batch for `m` to a queue that holds nothing for `m`. */
  lemma BatchJoinsQueue(env: Env, s: State, m: nat, selective: bool, release: real)
    requires QueueOk(env, s) && m < |env.messages| && CountFor(s.queue.tasks, m) == 0
    ensures var b := Batch(s.air.arrival, m, selective, release, Chunks(env, m));
      && Distinct(s.queue.tasks + b)
      && (forall i :: 0 <= i < |s.queue.tasks + b| ==> HasUnit(env.messages, (s.queue.tasks + b)[i].unit))
      && CountFor(s.queue.tasks + b, m) == |b|
      && (forall other: nat :: other != m ==> CountFor(s.queue.tasks + b, other) == CountFor(s.queue.tasks, other))
      && (forall u: Unit :: u.message != m ==> (Queued(s.queue.tasks + b, u) <==> Queued(s.queue.tasks, u)))
      && (forall u: Unit :: u.message == m ==>
            (Queued(s.queue.tasks + b, u) <==> u.chunk < Chunks(env, m) && !(selective && u in s.air.arrival)))
  {
    var n := Chunks(env, m);
    var b := Batch(s.air.arrival, m, selective, release, n);
    BatchContents(s.air.arrival, m, selective, release, n);
    NoneQueued(s.queue.tasks, m);
    AppendDistinct(s.queue.tasks, b);
    forall u: Unit
      ensures Queued(s.queue.tasks + b, u) <==> Queued(s.queue.tasks, u) || Queued(b, u)
    {
      AppendQueued(s.queue.tasks, b, u);
    }
    forall other: nat
      ensures CountFor(s.queue.tasks + b, other) == CountFor(s.queue.tasks, other) + if other == m then |b| else 0
    {
      CountAppend(s.queue.tasks, b, other);
      BatchCounts(s.air.arrival, m, selective, release, n, other);
    }
  }

  /** A batch is due: everything was sent, nothing is pending and something is missing. */
  ghost predicate Due(env: Env, s: State, m: nat)
    requires Shaped(env, s) && m < |env.messages|
  {
    && Datagram(env, m) && s.queue.pending[m] == 0
    && s.queue.next[m] == Chunks(env, m) && !AllArrived(s.air, m, Chunks(env, m))
  }

  lemma ScheduleUnlessDue(env: Env, s: State, m: nat)
    requires Sane(env) && Shaped(env, s) && m < |env.messages| && Settled(env, s, m) && !Due(env, s, m)
    ensures ScheduleRecovery(env, s, m) == s && MessageOk(env, s, m)
  {
    if Datagram(env, m) && s.queue.pending[m] == 0 && s.queue.next[m] < Chunks(env, m) {
      assert UnitOk(env, s, Unit(m, s.queue.next[m]));
    }
  }

  /** The queue once batch `b` of `m` has joined it. */
  function WithBatch(env: Env, queue: Queue, m: nat, b: seq<Task>): Queue
    requires m < |env.messages| && m < |queue.pending| && m < |queue.reports|
  {
    queue.(tasks := queue.tasks + b,
           pending := queue.pending[m := |b|],
           reports := if Selective(env, m) then queue.reports[m := queue.reports[m] + 1] else queue.reports)
  }

  lemma ScheduleWhenDue(env: Env, s: State, m: nat, release: real)
    requires Sane(env) && QueueOk(env, s) && m < |env.messages| && Settled(env, s, m) && Due(env, s, m)
    requires release == if Selective(env, m) then NackArrival(env, m, Chunks(env, m), s.free) else s.free + env.link.rtt
    ensures var b := Batch(s.air.arrival, m, Selective(env, m), release, Chunks(env, m));
      var t := ScheduleRecovery(env, s, m);
      && t.air == s.air
      && t.queue == WithBatch(env, s.queue, m, b)
  {
    forall c | 0 <= c < Chunks(env, m)
      ensures Tries(s.air, Unit(m, c)) > 0
    {
      assert UnitOk(env, s, Unit(m, c));
    }
  }

  ghost predicate KeepsOthers(env: Env, s: State, t: State, m: nat)
    requires Shaped(env, s) && Shaped(env, t)
  {
    forall other :: 0 <= other < |env.messages| && other != m ==> SameMessage(env, s, t, other)
  }

  lemma BatchKeepsOthers(env: Env, s: State, t: State, m: nat, b: seq<Task>)
    requires Shaped(env, s) && m < |env.messages|
    requires t.air == s.air && t.queue == WithBatch(env, s.queue, m, b)
    requires Shaped(env, t)
    requires forall other: nat :: other != m ==> CountFor(s.queue.tasks + b, other) == CountFor(s.queue.tasks, other)
    requires forall u: Unit :: u.message != m ==> (Queued(s.queue.tasks + b, u) <==> Queued(s.queue.tasks, u))
    ensures KeepsOthers(env, s, t, m)
  {
  }

  /** The next round of a selective message: its missing chunks have had equally many attempts. */
  lemma RoundStarts(env: Env, s: State, t: State, m: nat, b: seq<Task>, missing: nat)
    requires Shaped(env, s) && Shaped(env, t) && m < |env.messages| && Settled(env, s, m) && Due(env, s, m) && Selective(env, m)
    requires t.air == s.air && t.queue == WithBatch(env, s.queue, m, b)
    requires missing < Chunks(env, m) && Unit(m, missing) !in s.air.arrival
    requires forall u: Unit :: u.message == m ==>
      (Queued(s.queue.tasks + b, u) <==> u.chunk < Chunks(env, m) && u !in s.air.arrival)
    ensures InRound(env, t, m, t.queue.reports[m]) && ReportsOk(env, t, m)
  {
    NoneQueued(s.queue.tasks, m);
    var r := s.queue.reports[m];
    forall c | 0 <= c < Chunks(env, m)
      ensures if Queued(t.queue.tasks, Unit(m, c)) then Tries(t.air, Unit(m, c)) == r + 1 < First(env, Unit(m, c))
              else Tries(t.air, Unit(m, c)) == Min(First(env, Unit(m, c)), r + 2)
    {
      assert UnitOk(env, s, Unit(m, c));
    }
    assert UnitOk(env, s, Unit(m, missing));
    CapFacts(env, m, Chunks(env, m), 0);
  }

  /** The chunks of `m` after a batch for it was queued. */
  lemma BatchStarts(env: Env, s: State, t: State, m: nat, b: seq<Task>)
    requires Shaped(env, s) && Shaped(env, t) && m < |env.messages| && Settled(env, s, m) && Due(env, s, m)
    requires t.air == s.air && t.queue == WithBatch(env, s.queue, m, b)
    requires CountFor(s.queue.tasks + b, m) == |b|
    requires forall u: Unit :: u.message == m ==>
      (Queued(s.queue.tasks + b, u) <==> u.chunk < Chunks(env, m) && !(Selective(env, m) && u in s.air.arrival))
    ensures MessageOk(env, t, m)
  {
    var n := Chunks(env, m);
    forall c | 0 <= c < n
      ensures UnitOk(env, t, Unit(m, c))
    {
      assert UnitOk(env, s, Unit(m, c));
    }
    var c :| 0 <= c < n && Unit(m, c) !in s.air.arrival;
    SomeQueued(s.queue.tasks + b, Unit(m, c));
    if Selective(env, m) {
      RoundStarts(env, s, t, m, b, c);
    } else {
      var level :| Level(env, s, m, level);
      LevelIsCap(env, s, m, level);
      assert InBatch(env, t, m, level);
    }
  }

  lemma ScheduleKeeps(env: Env, s: State, m: nat)
    requires Sane(env) && QueueOk(env, s) && m < |env.messages| && Settled(env, s, m)
    ensures QueueOk(env, ScheduleRecovery(env, s, m))
    ensures MessageOk(env, ScheduleRecovery(env, s, m), m)
    ensures KeepsOthers(env, s, ScheduleRecovery(env, s, m), m)
    ensures ScheduleRecovery(env, s, m).air == s.air
  {
    if Due(env, s, m) {
      var release := if Selective(env, m) then NackArrival(env, m, Chunks(env, m), s.free) else s.free + env.link.rtt;
      var b := Batch(s.air.arrival, m, Selective(env, m), release, Chunks(env, m));
      ScheduleWhenDue(env, s, m, release);
      BatchJoinsQueue(env, s, m, Selective(env, m), release);
      BatchKeepsOthers(env, s, ScheduleRecovery(env, s, m), m, b);
      BatchStarts(env, s, ScheduleRecovery(env, s, m), m, b);
    } else {
      ScheduleUnlessDue(env, s, m);
    }
  }

  // ---- A fresh chunk ----

  /** The state after sending the next fresh chunk of `m`, before recovery is considered. */
  function Sent(env: Env, s: State, m: nat): (t: State)
    requires Sane(env) && Shaped(env, s) && m < |env.messages| && s.queue.next[m] < Chunks(env, m)
    ensures Shaped(env, t)
  {
    var t := Transmit(env, s, Unit(m, s.queue.next[m]), false);
    t.(queue := t.queue.(next := t.queue.next[m := t.queue.next[m] + 1]))
  }

  lemma NotQueuedYet(env: Env, s: State, m: nat)
    requires Reachable(env) && Inv(env, s) && m < |env.messages| && s.queue.next[m] < Chunks(env, m)
    ensures !Queued(s.queue.tasks, Unit(m, s.queue.next[m]))
  {
    assert MessageOk(env, s, m);
    if Datagram(env, m) {
      NoneQueued(s.queue.tasks, m);
    }
  }

  lemma SentUnit(env: Env, s: State, m: nat, c: nat)
    requires Reachable(env) && Shaped(env, s) && m < |env.messages| && s.queue.next[m] < Chunks(env, m) && c < Chunks(env, m)
    requires Settled(env, s, m)
    ensures UnitOk(env, Sent(env, s, m), Unit(m, c))
  {
    var u := Unit(m, s.queue.next[m]);
    assert UnitOk(env, s, Unit(m, c));
    assert UnitOk(env, s, u);
    TransmitEffect(env, s, u, false, Unit(m, c));
    ArrivalTracks(env, u, Tries(s.air, u), u in s.air.arrival);
    CapFacts(env, m, Chunks(env, m), 0);
    FirstFacts(env, u, 0);
  }

  lemma SentStream(env: Env, s: State, m: nat)
    requires Reachable(env) && Shaped(env, s) && m < |env.messages| && s.queue.next[m] < Chunks(env, m)
    requires Settled(env, s, m) && !Datagram(env, m)
    ensures StreamQueueOk(env, Sent(env, s, m), m)
  {
    var u := Unit(m, s.queue.next[m]);
    assert UnitOk(env, s, u);
    FirstFacts(env, u, 0);
    forall c | 0 <= c < Chunks(env, m)
      ensures Queued(Sent(env, s, m).queue.tasks, Unit(m, c))
         <==> c < Sent(env, s, m).queue.next[m] && Unit(m, c) !in Sent(env, s, m).air.arrival
    {
      TransmitEffect(env, s, u, false, Unit(m, c));
    }
  }

  lemma SentBatch(env: Env, s: State, m: nat)
    requires Reachable(env) && Shaped(env, s) && m < |env.messages| && s.queue.next[m] < Chunks(env, m)
    requires Settled(env, s, m) && Datagram(env, m)
    ensures BatchOk(env, Sent(env, s, m), m)
  {
    var u, t := Unit(m, s.queue.next[m]), Sent(env, s, m);
    TransmitCounts(env, s, u, false, m);
    NoneQueued(t.queue.tasks, m);
    assert UnitOk(env, s, u);
    forall c | 0 <= c < t.queue.next[m]
      ensures Tries(t.air, Unit(m, c)) == 1
    {
      TransmitEffect(env, s, u, false, Unit(m, c));
    }
    if t.queue.next[m] == Chunks(env, m) {
      FirstFacts(env, u, 0);
      CapFacts(env, m, Chunks(env, m), 0);
      assert Level(env, t, m, 1);
      SentRound(env, t, m);
    }
  }

  /** Before any report every chunk has been tried once. */
  lemma SentRound(env: Env, t: State, m: nat)
    requires m < |env.messages| && CountFor(t.queue.tasks, m) == 0 && Level(env, t, m, 1)
    ensures InRound(env, t, m, 0)
  {
    NoneQueued(t.queue.tasks, m);
    forall c | 0 <= c < Chunks(env, m)
      ensures Tries(t.air, Unit(m, c)) == Min(First(env, Unit(m, c)), 1)
    {
      FirstFacts(env, Unit(m, c), 0);
    }
  }

  lemma SentReports(env: Env, s: State, m: nat)
    requires Reachable(env) && Shaped(env, s) && m < |env.messages| && s.queue.next[m] < Chunks(env, m) && Settled(env, s, m)
    ensures ReportsOk(env, Sent(env, s, m), m)
  {
    FirstFacts(env, Unit(m, 0), 0);
    CapFacts(env, m, Chunks(env, m), 0);
  }

  lemma SentSettled(env: Env, s: State, m: nat)
    requires Reachable(env) && Shaped(env, s) && m < |env.messages| && s.queue.next[m] < Chunks(env, m)
    requires Settled(env, s, m)
    ensures Settled(env, Sent(env, s, m), m)
  {
    forall c | 0 <= c < Chunks(env, m)
      ensures UnitOk(env, Sent(env, s, m), Unit(m, c))
    {
      SentUnit(env, s, m, c);
    }
    SentReports(env, s, m);
    if Datagram(env, m) {
      SentBatch(env, s, m);
    } else {
      SentStream(env, s, m);
    }
  }

  lemma SentKeepsOther(env: Env, s: State, m: nat, other: nat)
    requires Sane(env) && Shaped(env, s) && m < |env.messages| && s.queue.next[m] < Chunks(env, m)
    requires other < |env.messages| && other != m
    ensures SameMessage(env, s, Sent(env, s, m), other)
  {
    var u := Unit(m, s.queue.next[m]);
    TransmitCounts(env, s, u, false, other);
    forall c | 0 <= c < Chunks(env, other)
      ensures SameUnit(s, Sent(env, s, m), Unit(other, c))
    {
      TransmitEffect(env, s, u, false, Unit(other, c));
    }
  }

  /** From a settled message and untouched others to the whole invariant. */
  lemma SettleMessage(env: Env, s: State, t: State, m: nat)
    requires Sane(env) && Inv(env, s) && QueueOk(env, t) && m < |env.messages| && Settled(env, t, m) && KeepsOthers(env, s, t, m)
    ensures Inv(env, ScheduleRecovery(env, t, m))
  {
    ScheduleKeeps(env, t, m);
    var r := ScheduleRecovery(env, t, m);
    forall other | 0 <= other < |env.messages|
      ensures MessageOk(env, r, other)
    {
      if other != m {
        assert SameMessage(env, s, t, other) && SameMessage(env, t, r, other);
        FrameMessage(env, s, t, other);
        FrameMessage(env, t, r, other);
      }
    }
  }

  lemma SendFreshKeepsInv(env: Env, s: State, m: nat)
    requires Reachable(env) && Inv(env, s) && m < |env.messages| && s.queue.next[m] < Chunks(env, m)
    ensures Inv(env, SendFresh(env, s, m))
  {
    NotQueuedYet(env, s, m);
    TransmitQueueOk(env, s, Unit(m, s.queue.next[m]), false);
    assert MessageOk(env, s, m);
    SentSettled(env, s, m);
    forall other | 0 <= other < |env.messages| && other != m
      ensures SameMessage(env, s, Sent(env, s, m), other)
    {
      SentKeepsOther(env, s, m, other);
    }
    SettleMessage(env, s, Sent(env, s, m), m);
  }

  // ---- A retransmission ----

  /** The state after retransmitting task `i`, before recovery is considered. */
  function Resent(env: Env, s: State, i: nat): (t: State)
    requires Sane(env) && Shaped(env, s) && i < |s.queue.tasks| && HasUnit(env.messages, s.queue.tasks[i].unit)
    ensures Shaped(env, t)
  {
    var u := s.queue.tasks[i].unit;
    var t := Transmit(env, Removed(s, i), u, true);
    if !Datagram(env, u.message) then t
    else t.(queue := t.queue.(pending := t.queue.pending[u.message := t.queue.pending[u.message] - 1]))
  }

  function Removed(s: State, i: nat): State
    requires i < |s.queue.tasks|
  {
    s.(queue := s.queue.(tasks := SwapRemove(s.queue.tasks, i)))
  }

  lemma ResendIs(env: Env, s: State, i: nat)
    requires Sane(env) && Shaped(env, s) && i < |s.queue.tasks| && HasUnit(env.messages, s.queue.tasks[i].unit)
    ensures var u := s.queue.tasks[i].unit;
      Resend(env, s, i)
      == if Datagram(env, u.message) then ScheduleRecovery(env, Resent(env, s, i), u.message) else Resent(env, s, i)
  {
  }

  /** What a retransmission does to unit `v`. */
  lemma ResentEffect(env: Env, s: State, i: nat, v: Unit)
    requires Sane(env) && QueueOk(env, s) && i < |s.queue.tasks|
    ensures var u, t := s.queue.tasks[i].unit, Resent(env, s, i);
      && t.queue.next == s.queue.next && t.queue.reports == s.queue.reports
      && Tries(t.air, v) == Tries(s.air, v) + (if v == u then 1 else 0)
      && (v in t.air.firstSend <==> v in s.air.firstSend || v == u)
      && (v in t.air.arrival <==> v in s.air.arrival || (v == u && !env.link.lost(u, Tries(s.air, u) + 1)))
      && (v != u ==> (Queued(t.queue.tasks, v) <==> Queued(s.queue.tasks, v)))
      && (Queued(t.queue.tasks, u) <==> !Datagram(env, u.message) && env.link.lost(u, Tries(s.air, u) + 1))
  {
    var u := s.queue.tasks[i].unit;
    SwapRemoveQueued(s.queue.tasks, i, v);
    SwapRemoveQueued(s.queue.tasks, i, u);
    TransmitEffect(env, Removed(s, i), u, true, v);
    TransmitEffect(env, Removed(s, i), u, true, u);
  }

  /** A queued chunk has not used up its attempts. */
  lemma QueuedHasBudget(env: Env, s: State, i: nat)
    requires Reachable(env) && Inv(env, s) && i < |s.queue.tasks|
    ensures var u := s.queue.tasks[i].unit;
      && HasUnit(env.messages, u) && 0 < Tries(s.air, u) < Limit(env, u)
      && (Datagram(env, u.message) ==> s.queue.pending[u.message] >= 1)
      && (!WholeMessage(env, u.message) ==> u !in s.air.arrival)
      && (Datagram(env, u.message) ==> s.queue.next[u.message] == Chunks(env, u.message))
  {
    var u := s.queue.tasks[i].unit;
    assert MessageOk(env, s, u.message);
    assert u == Unit(u.message, u.chunk);
    assert UnitOk(env, s, u);
    assert Queued(s.queue.tasks, u);
    SomeQueued(s.queue.tasks, u);
    if WholeMessage(env, u.message) {
      var b :| InBatch(env, s, u.message, b);
    }
  }

  lemma ResentUnit(env: Env, s: State, i: nat, c: nat)
    requires Reachable(env) && Inv(env, s) && i < |s.queue.tasks| && c < Chunks(env, s.queue.tasks[i].unit.message)
    ensures UnitOk(env, Resent(env, s, i), Unit(s.queue.tasks[i].unit.message, c))
  {
    var u := s.queue.tasks[i].unit;
    assert MessageOk(env, s, u.message);
    assert UnitOk(env, s, Unit(u.message, c));
    QueuedHasBudget(env, s, i);
    ResentEffect(env, s, i, Unit(u.message, c));
    if c == u.chunk {
      ArrivalTracks(env, u, Tries(s.air, u), u in s.air.arrival);
    }
  }

  lemma ResentStream(env: Env, s: State, i: nat)
    requires Reachable(env) && Inv(env, s) && i < |s.queue.tasks| && !Datagram(env, s.queue.tasks[i].unit.message)
    ensures StreamQueueOk(env, Resent(env, s, i), s.queue.tasks[i].unit.message)
  {
    var u, t := s.queue.tasks[i].unit, Resent(env, s, i);
    assert MessageOk(env, s, u.message);
    QueuedHasBudget(env, s, i);
    assert UnitOk(env, s, Unit(u.message, u.chunk));
    forall c | 0 <= c < Chunks(env, u.message)
      ensures Queued(t.queue.tasks, Unit(u.message, c))
         <==> c < t.queue.next[u.message] && Unit(u.message, c) !in t.air.arrival
    {
      ResentEffect(env, s, i, Unit(u.message, c));
    }
  }

  lemma ResentCounts(env: Env, s: State, i: nat, m: nat)
    requires Sane(env) && QueueOk(env, s) && i < |s.queue.tasks|
    requires Datagram(env, s.queue.tasks[i].unit.message) || m != s.queue.tasks[i].unit.message
    ensures CountFor(Resent(env, s, i).queue.tasks, m)
         == CountFor(s.queue.tasks, m) - if m == s.queue.tasks[i].unit.message then 1 else 0
  {
    SwapRemoveCounts(s.queue.tasks, i, m);
    TransmitCounts(env, Removed(s, i), s.queue.tasks[i].unit, true, m);
  }

  /** A whole-message batch shrinks by one chunk, or ends with every chunk at the next level. */
  lemma ResentWhole(env: Env, s: State, i: nat, b: nat)
    requires Reachable(env) && Inv(env, s) && i < |s.queue.tasks| && WholeMessage(env, s.queue.tasks[i].unit.message)
    requires InBatch(env, s, s.queue.tasks[i].unit.message, b)
    ensures var m, t := s.queue.tasks[i].unit.message, Resent(env, s, i);
      InBatch(env, t, m, b) && (CountFor(t.queue.tasks, m) == 0 ==> Level(env, t, m, b + 1))
  {
    var u, t := s.queue.tasks[i].unit, Resent(env, s, i);
    assert Queued(s.queue.tasks, Unit(u.message, u.chunk));
    forall c | 0 <= c < Chunks(env, u.message)
      ensures Tries(t.air, Unit(u.message, c)) == if Queued(t.queue.tasks, Unit(u.message, c)) then b else b + 1
    {
      ResentEffect(env, s, i, Unit(u.message, c));
    }
    if CountFor(t.queue.tasks, u.message) == 0 {
      NoneQueued(t.queue.tasks, u.message);
    }
  }

  /** A selective round goes on with one chunk less to send. */
  lemma ResentRound(env: Env, s: State, i: nat)
    requires Reachable(env) && Inv(env, s) && i < |s.queue.tasks| && Selective(env, s.queue.tasks[i].unit.message)
    ensures var m, t := s.queue.tasks[i].unit.message, Resent(env, s, i);
      InRound(env, t, m, s.queue.reports[m])
  {
    var u, t := s.queue.tasks[i].unit, Resent(env, s, i);
    assert MessageOk(env, s, u.message);
    QueuedHasBudget(env, s, i);
    assert Queued(s.queue.tasks, Unit(u.message, u.chunk));
    forall c | 0 <= c < Chunks(env, u.message)
      ensures if Queued(t.queue.tasks, Unit(u.message, c))
              then Tries(t.air, Unit(u.message, c)) == s.queue.reports[u.message] < First(env, Unit(u.message, c))
              else Tries(t.air, Unit(u.message, c)) == Min(First(env, Unit(u.message, c)), s.queue.reports[u.message] + 1)
    {
      ResentEffect(env, s, i, Unit(u.message, c));
    }
  }

  lemma ResentBatch(env: Env, s: State, i: nat)
    requires Reachable(env) && Inv(env, s) && i < |s.queue.tasks| && Datagram(env, s.queue.tasks[i].unit.message)
    ensures BatchOk(env, Resent(env, s, i), s.queue.tasks[i].unit.message)
  {
    var u, t := s.queue.tasks[i].unit, Resent(env, s, i);
    assert MessageOk(env, s, u.message);
    QueuedHasBudget(env, s, i);
    ResentCounts(env, s, i, u.message);
    ResentEffect(env, s, i, u);
    if Selective(env, u.message) {
      ResentRound(env, s, i);
    } else {
      var b :| InBatch(env, s, u.message, b);
      ResentWhole(env, s, i, b);
    }
  }

  lemma ResentSettled(env: Env, s: State, i: nat)
    requires Reachable(env) && Inv(env, s) && i < |s.queue.tasks|
    ensures Settled(env, Resent(env, s, i), s.queue.tasks[i].unit.message)
  {
    var u := s.queue.tasks[i].unit;
    assert MessageOk(env, s, u.message);
    forall c | 0 <= c < Chunks(env, u.message)
      ensures UnitOk(env, Resent(env, s, i), Unit(u.message, c))
    {
      ResentUnit(env, s, i, c);
    }
    ResentEffect(env, s, i, u);
    if Datagram(env, u.message) {
      ResentBatch(env, s, i);
    } else {
      ResentStream(env, s, i);
    }
  }

  lemma ResentQueueOk(env: Env, s: State, i: nat)
    requires Sane(env) && QueueOk(env, s) && i < |s.queue.tasks|
    ensures QueueOk(env, Resent(env, s, i))
  {
    var u := s.queue.tasks[i].unit;
    SwapRemoveOrigin(s.queue.tasks, i);
    SwapRemoveDistinct(s.queue.tasks, i);
    SwapRemoveQueued(s.queue.tasks, i, u);
    assert QueueOk(env, Removed(s, i));
    TransmitQueueOk(env, Removed(s, i), u, true);
  }

  lemma ResentKeepsOther(env: Env, s: State, i: nat, other: nat)
    requires Sane(env) && QueueOk(env, s) && i < |s.queue.tasks|
    requires other < |env.messages| && other != s.queue.tasks[i].unit.message
    ensures SameMessage(env, s, Resent(env, s, i), other)
  {
    ResentCounts(env, s, i, other);
    ResentEffect(env, s, i, s.queue.tasks[i].unit);
    forall c | 0 <= c < Chunks(env, other)
      ensures SameUnit(s, Resent(env, s, i), Unit(other, c))
    {
      ResentEffect(env, s, i, Unit(other, c));
    }
  }

  lemma ResendKeepsInv(env: Env, s: State, i: nat)
    requires Reachable(env) && Inv(env, s) && i < |s.queue.tasks|
    ensures Inv(env, Resend(env, s, i))
  {
    var m := s.queue.tasks[i].unit.message;
    ResendIs(env, s, i);
    ResentQueueOk(env, s, i);
    ResentSettled(env, s, i);
    forall other | 0 <= other < |env.messages| && other != m
      ensures SameMessage(env, s, Resent(env, s, i), other)
    {
      ResentKeepsOther(env, s, i, other);
    }
    SettleMessage(env, s, Resent(env, s, i), m);
    if !Datagram(env, m) {
      assert ScheduleRecovery(env, Resent(env, s, i), m) == Resent(env, s, i);
    }
  }

  // ---- The loop ----

  /** The cursor and the clock are not part of the invariant. */
  lemma InvIgnoresClock(env: Env, s: State, t: State)
    requires Inv(env, s) && t.air == s.air && t.queue == s.queue.(cursor := t.queue.cursor) && t.places == s.places
    ensures Inv(env, t)
  {
    forall m | 0 <= m < |env.messages|
      ensures MessageOk(env, t, m)
    {
      assert MessageOk(env, s, m);
      assert SameMessage(env, s, t, m);
      FrameMessage(env, s, t, m);
    }
  }

  lemma ActKeepsInv(env: Env, s: State, choice: Choice)
    requires Reachable(env) && Inv(env, s) && Possible(env, s, choice)
    ensures Inv(env, Act(env, s, choice))
  {
    match choice
    case FreshMessage(m) =>
      SendFreshKeepsInv(env, s, m);
    case Retry(i) =>
      ResendKeepsInv(env, s, i);
    case FreshFromCursor(m) =>
      var turned := s.(queue := s.queue.(cursor := (m + 1) % |env.messages|));
      InvIgnoresClock(env, s, turned);
      SendFreshKeepsInv(env, turned, m);
    case Idle =>
      InvIgnoresClock(env, s, Act(env, s, Idle));
  }

  lemma StartKeepsInv(env: Env)
    requires Reachable(env)
    ensures Inv(env, Start(env))
  {
    var s := Start(env);
    forall m | 0 <= m < |env.messages|
      ensures MessageOk(env, s, m)
    {
      forall c | 0 <= c < Chunks(env, m)
        ensures UnitOk(env, s, Unit(m, c))
      {
        FirstFacts(env, Unit(m, c), 0);
        CapFacts(env, m, Chunks(env, m), 0);
      }
    }
  }
}
