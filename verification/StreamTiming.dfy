/**
 * Times of the stream simulator over whole runs: what the link is busy with, when an attempt lands, when
 * a chunk counts as sent and as arrived, and how long a retransmission waits. The laws are about any
 * sequence of states whose neighbours are related as one iteration relates them.
 */
module StreamTiming {
  import opened Options
  import opened StreamModel
  import opened StreamQueue
  import opened StreamInvariant
  import opened StreamSteps
  import opened StreamRun
  import opened StreamOrder

  /** The states of a run, one per iteration. */
  type History = nat -> State

  /** `h` is the run of the loop. */
  ghost predicate IsRun(env: Env, h: History)
    requires Sane(env)
  {
    h(0) == Start(env) && forall i: nat :: Follows(env, h, i)
  }

  ghost predicate Follows(env: Env, h: History, i: nat)
    requires Sane(env)
  {
    Shaped(env, h(i)) && h(i + 1) == Advance(env, h(i))
  }

  /** There is exactly one such history, the states after `0, 1, 2, ...` iterations. */
  lemma {:induction false} RunIsAfter(env: Env, h: History, n: nat)
    requires Sane(env) && IsRun(env, h)
    ensures h(n) == After(env, n)
  {
    if n == 0 {
      AfterNext(env, 0);
    } else {
      RunIsAfter(env, h, n - 1);
      AfterNext(env, n - 1);
      assert Follows(env, h, n - 1);
    }
  }

  lemma RunExists(env: Env) returns (h: History)
    requires Sane(env)
    ensures IsRun(env, h)
  {
    h := (i: nat) => After(env, i);
    forall i: nat
      ensures Follows(env, h, i)
    {
      AfterNext(env, i);
    }
    AfterNext(env, 0);
  }

  /** Iteration `i` sends `u`. */
  ghost predicate SentIn(h: History, i: nat, u: Unit) {
    Tries(h(i + 1).air, u) > Tries(h(i).air, u)
  }

  /** When what iteration `i` sends has left. */
  ghost function EndOf(h: History, i: nat): real {
    h(i + 1).free
  }

  /** The number of the attempt iteration `i` makes of `u`. */
  ghost function AttemptIn(h: History, i: nat, u: Unit): nat {
    Tries(h(i + 1).air, u)
  }

  ghost predicate Lands(env: Env, h: History, i: nat, u: Unit) {
    SentIn(h, i, u) && !env.link.lost(u, AttemptIn(h, i, u))
  }

  /** Half a round trip, or a whole one for an attempt that is reordered. */
  ghost function Flight(link: Link, u: Unit, attempt: nat): real {
    link.rtt / 2.0 + if link.reordered(u, attempt) then link.rtt / 2.0 else 0.0
  }

  ghost function LandsAt(env: Env, h: History, i: nat, u: Unit): real {
    EndOf(h, i) + Flight(env.link, u, AttemptIn(h, i, u))
  }

  // ---- Arrivals and first sends ----

  ghost predicate SameTimes(s: State, t: State, u: Unit) {
    && (u in t.air.arrival <==> u in s.air.arrival) && (u in s.air.arrival ==> t.air.arrival[u] == s.air.arrival[u])
    && (u in t.air.firstSend <==> u in s.air.firstSend) && (u in s.air.firstSend ==> t.air.firstSend[u] == s.air.firstSend[u])
  }

  /** The times of `u` after an attempt that left at `t.free` and, unless lost, landed at `at`. */
  ghost predicate SentTimes(s: State, t: State, u: Unit, lost: bool, at: real) {
    && u in t.air.firstSend && t.air.firstSend[u] == (if u in s.air.firstSend then s.air.firstSend[u] else t.free)
    && (u in t.air.arrival <==> u in s.air.arrival || !lost)
    && (u in t.air.arrival ==>
          t.air.arrival[u] == if u in s.air.arrival && (lost || s.air.arrival[u] <= at) then s.air.arrival[u] else at)
  }

  ghost predicate TimesMove(env: Env, h: History, i: nat, u: Unit) {
    if SentIn(h, i, u) then SentTimes(h(i), h(i + 1), u, env.link.lost(u, AttemptIn(h, i, u)), LandsAt(env, h, i, u))
    else SameTimes(h(i), h(i + 1), u)
  }

  ghost predicate EarliestLanding(env: Env, h: History, n: nat, u: Unit) {
    var arrival := h(n).air.arrival;
    && (forall i :: 0 <= i < n && Lands(env, h, i, u) ==> u in arrival && arrival[u] <= LandsAt(env, h, i, u))
    && (u in arrival ==> exists i :: 0 <= i < n && Lands(env, h, i, u) && arrival[u] == LandsAt(env, h, i, u))
  }

  lemma LandingNext(env: Env, h: History, n: nat, u: Unit)
    requires EarliestLanding(env, h, n, u) && TimesMove(env, h, n, u)
    ensures EarliestLanding(env, h, n + 1, u)
  {
    if u in h(n).air.arrival {
      var i :| 0 <= i < n && Lands(env, h, i, u) && h(n).air.arrival[u] == LandsAt(env, h, i, u);
    }
  }

  lemma {:induction false} LandingsOf(env: Env, h: History, n: nat, u: Unit)
    requires h(0).air.arrival == map[] && forall i: nat :: TimesMove(env, h, i, u)
    ensures EarliestLanding(env, h, n, u)
  {
    if n > 0 {
      LandingsOf(env, h, n - 1, u);
      LandingNext(env, h, n - 1, u);
    }
  }

  /** Iteration `i` sends `u` for the first time. */
  ghost predicate FirstSentIn(h: History, i: nat, u: Unit) {
    SentIn(h, i, u) && forall j :: 0 <= j < i ==> !SentIn(h, j, u)
  }

  lemma {:induction false} FirstSendsOf(env: Env, h: History, n: nat, u: Unit)
    requires h(0).air.firstSend == map[] && forall i: nat :: TimesMove(env, h, i, u)
    ensures u in h(n).air.firstSend ==> exists i :: 0 <= i < n && FirstSentIn(h, i, u) && h(n).air.firstSend[u] == EndOf(h, i)
    ensures u !in h(n).air.firstSend ==> forall i :: 0 <= i < n ==> !SentIn(h, i, u)
  {
    if n > 0 {
      FirstSendsOf(env, h, n - 1, u);
      assert TimesMove(env, h, n - 1, u);
      if u !in h(n - 1).air.firstSend && u in h(n).air.firstSend {
        assert FirstSentIn(h, n - 1, u);
      }
    }
  }

  // ---- The link ----

  lemma SerializationAdds(link: Link, a: nat, b: nat)
    requires link.bandwidth > 0.0
    ensures Serialization(link, a + b) == Serialization(link, a) + Serialization(link, b)
    ensures Serialization(link, a) >= 0.0
  {
  }

  /** Setup and data bytes put on the wire so far. */
  ghost function Sent(s: State): int {
    s.cost.wire - s.cost.control
  }

  /** Some packet went out. */
  ghost predicate Busy(s: State, t: State) {
    t.cost != s.cost
  }

  /** An iteration sends some bytes, one packet right after the other, or waits. */
  ghost predicate LinkMoves(env: Env, s: State, t: State)
    requires Sane(env)
  {
    if Busy(s, t) then Sent(t) >= Sent(s) && t.free == s.free + Serialization(env.link, Sent(t) - Sent(s)) else s.free <= t.free
  }

  /** Time the link has waited: what passes in iterations that send nothing. */
  ghost function Waited(h: History, n: nat): real {
    if n == 0 then 0.0 else Waited(h, n - 1) + if Busy(h(n - 1), h(n)) then 0.0 else h(n).free - h(n - 1).free
  }

  lemma {:induction false} LinkTimeOf(env: Env, h: History, n: nat)
    requires Sane(env) && forall i: nat :: LinkMoves(env, h(i), h(i + 1))
    requires forall i: nat :: !Busy(h(i), h(i + 1)) ==> Sent(h(i + 1)) == Sent(h(i))
    ensures Sent(h(n)) >= Sent(h(0)) && h(n).free == h(0).free + Serialization(env.link, Sent(h(n)) - Sent(h(0))) + Waited(h, n)
  {
    if n > 0 {
      LinkTimeOf(env, h, n - 1);
      assert LinkMoves(env, h(n - 1), h(n - 1 + 1));
      if Busy(h(n - 1), h(n)) {
        SerializationAdds(env.link, Sent(h(n - 1)) - Sent(h(0)), Sent(h(n)) - Sent(h(n - 1)));
      }
    }
  }

  lemma {:induction false} FreeNeverFalls(env: Env, h: History, i: nat, j: nat)
    requires Sane(env) && i <= j && forall k: nat :: LinkMoves(env, h(k), h(k + 1))
    ensures h(i).free <= h(j).free
    decreases j - i
  {
    if i < j {
      FreeNeverFalls(env, h, i, j - 1);
      assert LinkMoves(env, h(j - 1), h(j - 1 + 1));
      SerializationAdds(env.link, if Sent(h(j)) >= Sent(h(j - 1)) then Sent(h(j)) - Sent(h(j - 1)) else 0, 0);
    }
  }

  // ---- Retransmissions ----

  /** How long after a batch or a lost chunk has left its retransmissions are released. */
  ghost function RetryDelay(env: Env, m: nat): real
    requires Sane(env) && m < |env.messages|
  {
    if Selective(env, m) then NackAttempts(env, m) as real * env.link.rtt + (NackLen(env, Chunks(env, m)) * 8) as real / env.link.bandwidth
    else env.link.rtt
  }

  /** The task was released by iteration `i`, which sent from the same message, the chunk itself on a stream. */
  ghost predicate ReleasedBy(env: Env, h: History, task: Task, i: nat, v: Unit)
    requires Sane(env)
  {
    && v.message < |env.messages| && v.message == task.unit.message && (!Datagram(env, v.message) ==> v == task.unit)
    && SentIn(h, i, v) && task.release == EndOf(h, i) + RetryDelay(env, v.message)
  }

  /** ... and the chunk has not been sent since. */
  ghost predicate ReleasedBefore(env: Env, h: History, n: nat, task: Task)
    requires Sane(env)
  {
    exists i, v :: 0 <= i < n && ReleasedBy(env, h, task, i, v) && NotSentSince(h, i, n, task.unit)
  }

  ghost predicate NotSentSince(h: History, i: nat, n: nat, u: Unit) {
    forall j :: i < j < n ==> !SentIn(h, j, u)
  }

  /** A task the iteration leaves queued stayed untouched, or the iteration released it. */
  ghost predicate QueueMoves(env: Env, h: History, i: nat)
    requires Sane(env)
  {
    forall task :: task in h(i + 1).queue.tasks ==>
      (task in h(i).queue.tasks && !SentIn(h, i, task.unit)) || exists v :: ReleasedBy(env, h, task, i, v)
  }

  lemma StillReleased(env: Env, h: History, n: nat, task: Task)
    requires Sane(env) && ReleasedBefore(env, h, n, task) && !SentIn(h, n, task.unit)
    ensures ReleasedBefore(env, h, n + 1, task)
  {
    var i, v :| 0 <= i < n && ReleasedBy(env, h, task, i, v) && NotSentSince(h, i, n, task.unit);
    assert NotSentSince(h, i, n + 1, task.unit);
  }

  lemma {:induction false} ReleasesOf(env: Env, h: History, n: nat, task: Task)
    requires Sane(env) && h(0).queue.tasks == [] && (forall i: nat :: QueueMoves(env, h, i)) && task in h(n).queue.tasks
    ensures ReleasedBefore(env, h, n, task)
  {
    if n > 0 {
      assert QueueMoves(env, h, n - 1);
      if task in h(n - 1).queue.tasks && !SentIn(h, n - 1, task.unit) {
        ReleasesOf(env, h, n - 1, task);
        StillReleased(env, h, n - 1, task);
      } else {
        var v :| ReleasedBy(env, h, task, n - 1, v);
        assert NotSentSince(h, n - 1, n, task.unit);
      }
    }
  }

  // ---- One iteration ----

  ghost predicate TimesAfter(env: Env, s: State, t: State, u: Unit, sent: bool) {
    if sent then
      var a := Tries(s.air, u) + 1;
      SentTimes(s, t, u, env.link.lost(u, a), t.free + Flight(env.link, u, a))
    else SameTimes(s, t, u)
  }

  lemma TransmitTimes(env: Env, s: State, v: Unit, retransmission: bool, t: State, u: Unit)
    requires Sane(env) && HasUnit(env.messages, v) && t == Transmit(env, s, v, retransmission)
    ensures TimesAfter(env, s, t, u, u == v)
  {
  }

  lemma SendFreshTimes(env: Env, s: State, m: nat, t: State, u: Unit)
    requires Sane(env) && Shaped(env, s) && m < |env.messages| && s.queue.next[m] < Chunks(env, m) && t == SendFresh(env, s, m)
    ensures TimesAfter(env, s, t, u, u == Unit(m, s.queue.next[m]))
  {
    var sent := Transmit(env, s, Unit(m, s.queue.next[m]), false);
    TransmitTimes(env, s, Unit(m, s.queue.next[m]), false, sent, u);
    assert t.air == sent.air && t.free == sent.free;
  }

  lemma ResendTimes(env: Env, s: State, i: nat, t: State, u: Unit)
    requires Sane(env) && Shaped(env, s) && i < |s.queue.tasks| && HasUnit(env.messages, s.queue.tasks[i].unit)
    requires t == Resend(env, s, i)
    ensures TimesAfter(env, s, t, u, u == s.queue.tasks[i].unit)
  {
    var sent := Transmit(env, Removed(s, i), s.queue.tasks[i].unit, true);
    TransmitTimes(env, Removed(s, i), s.queue.tasks[i].unit, true, sent, u);
    assert t.air == sent.air && t.free == sent.free;
  }

  lemma ActTimes(env: Env, s: State, choice: Choice, t: State, u: Unit)
    requires Sane(env) && Shaped(env, s) && Possible(env, s, choice) && t == Act(env, s, choice)
    ensures TimesAfter(env, s, t, u, !choice.Idle? && u == Target(env, s, choice))
  {
    match choice
    case FreshMessage(m) => SendFreshTimes(env, s, m, t, u);
    case FreshFromCursor(m) => SendFreshTimes(env, s.(queue := s.queue.(cursor := (m + 1) % |env.messages|)), m, t, u);
    case Retry(i) => ResendTimes(env, s, i, t, u);
    case Idle =>
  }

  lemma AdvanceTimes(env: Env, s: State, t: State, u: Unit)
    requires Sane(env) && Shaped(env, s) && t == Advance(env, s)
    ensures TimesAfter(env, s, t, u, Tries(t.air, u) > Tries(s.air, u))
    ensures Tries(t.air, u) == Tries(s.air, u) || Tries(t.air, u) == Tries(s.air, u) + 1
  {
    if !Done(env, s) {
      ActSends(env, s, Choose(env, s), t, u);
      ActTimes(env, s, Choose(env, s), t, u);
    }
  }

  lemma IterationTimes(env: Env, h: History, i: nat, u: Unit)
    requires Sane(env) && Follows(env, h, i)
    ensures TimesMove(env, h, i, u)
  {
    AdvanceTimes(env, h(i), h(i + 1), u);
  }

  /** An action either sends a packet, which occupies the link for its length, or waits. */
  lemma ActOccupies(env: Env, s: State, choice: Choice, t: State)
    requires Sane(env) && Shaped(env, s) && Possible(env, s, choice) && t == Act(env, s, choice)
    ensures LinkMoves(env, s, t) && (Busy(s, t) <==> !choice.Idle?) && (!Busy(s, t) ==> t.cost == s.cost)
  {
    if choice.Idle? {
      assert t.cost == s.cost;
    } else {
      assert t.cost.packets > s.cost.packets;
      assert Sent(t) == Sent(s) + WireLen(env, Target(env, s, choice));
    }
  }

  lemma IterationOccupies(env: Env, s: State, t: State)
    requires Sane(env) && Shaped(env, s) && t == Advance(env, s)
    ensures LinkMoves(env, s, t) && (!Busy(s, t) ==> t.cost == s.cost)
  {
    if !Done(env, s) {
      ActOccupies(env, s, Choose(env, s), t);
    }
  }

  lemma RetryDelayIsARoundTrip(env: Env, m: nat, free: real)
    requires Sane(env) && m < |env.messages|
    ensures RetryDelay(env, m) >= env.link.rtt
    ensures Selective(env, m) ==> NackArrival(env, m, Chunks(env, m), free) == free + RetryDelay(env, m)
  {
    var k := NackAttempts(env, m);
    SerializationAdds(env.link, NackLen(env, Chunks(env, m)), 0);
    OneMore(k - 1, 0, env.link.rtt);
    assert (k - 1) as real * env.link.rtt >= 0.0;
  }

  /** Tasks that scheduling a recovery appends belong to its message and wait the right delay. */
  lemma ScheduleReleases(env: Env, s: State, m: nat, t: State, task: Task)
    requires Sane(env) && Shaped(env, s) && m < |env.messages| && t == ScheduleRecovery(env, s, m) && task in t.queue.tasks
    ensures t.free == s.free
    ensures task in s.queue.tasks
         || (Datagram(env, m) && task.unit.message == m && task.release == t.free + RetryDelay(env, m))
  {
    var n := Chunks(env, m);
    RetryDelayIsARoundTrip(env, m, s.free);
    var release := if Selective(env, m) then NackArrival(env, m, n, s.free) else s.free + env.link.rtt;
    BatchContents(s.air.arrival, m, Selective(env, m), release, n);
    if task !in s.queue.tasks {
      var b := Batch(s.air.arrival, m, Selective(env, m), release, n);
      assert t.queue.tasks == s.queue.tasks + b;
      assert task in b;
    }
  }

  /** What action on `u` leaves in the queue: old tasks of other chunks, or tasks it released. */
  ghost predicate Releases(env: Env, s: State, t: State, u: Unit, task: Task)
    requires Sane(env) && u.message < |env.messages|
  {
    || (task in s.queue.tasks && task.unit != u)
    || (&& task.unit.message == u.message && (!Datagram(env, u.message) ==> task.unit == u)
        && task.release == t.free + RetryDelay(env, u.message))
  }

  lemma TransmitReleases(env: Env, s: State, u: Unit, retransmission: bool, t: State, task: Task)
    requires Sane(env) && HasUnit(env.messages, u) && !Queued(s.queue.tasks, u) && t == Transmit(env, s, u, retransmission)
    requires task in t.queue.tasks
    ensures Releases(env, s, t, u, task)
  {
    if task in s.queue.tasks {
      var i :| 0 <= i < |s.queue.tasks| && s.queue.tasks[i] == task;
      assert task.unit != u;
    }
  }

  lemma SendFreshReleases(env: Env, s: State, m: nat, t: State, task: Task)
    requires Reachable(env) && Inv(env, s) && m < |env.messages| && s.queue.next[m] < Chunks(env, m)
    requires t == SendFresh(env, s, m) && task in t.queue.tasks
    ensures Releases(env, s, t, Unit(m, s.queue.next[m]), task)
  {
    var u := Unit(m, s.queue.next[m]);
    NotQueuedYet(env, s, m);
    var sent := StreamSteps.Sent(env, s, m);
    ScheduleReleases(env, sent, m, t, task);
    if task in sent.queue.tasks {
      TransmitReleases(env, s, u, false, Transmit(env, s, u, false), task);
    }
  }

  lemma ResendReleases(env: Env, s: State, i: nat, t: State, task: Task)
    requires Reachable(env) && Inv(env, s) && i < |s.queue.tasks| && HasUnit(env.messages, s.queue.tasks[i].unit)
    requires t == Resend(env, s, i) && task in t.queue.tasks
    ensures Releases(env, s, t, s.queue.tasks[i].unit, task)
  {
    var u, resent := s.queue.tasks[i].unit, Resent(env, s, i);
    ResendIs(env, s, i);
    SwapRemoveQueued(s.queue.tasks, i, u);
    SwapRemoveOrigin(s.queue.tasks, i);
    ScheduleReleases(env, resent, u.message, ScheduleRecovery(env, resent, u.message), task);
    if task in resent.queue.tasks {
      TransmitReleases(env, Removed(s, i), u, true, Transmit(env, Removed(s, i), u, true), task);
    }
  }

  lemma ActReleases(env: Env, s: State, choice: Choice, t: State, task: Task)
    requires Reachable(env) && Inv(env, s) && Possible(env, s, choice) && !choice.Idle?
    requires t == Act(env, s, choice) && task in t.queue.tasks
    ensures Releases(env, s, t, Target(env, s, choice), task)
  {
    match choice
    case FreshMessage(m) => SendFreshReleases(env, s, m, t, task);
    case FreshFromCursor(m) =>
      var turned := s.(queue := s.queue.(cursor := (m + 1) % |env.messages|));
      InvIgnoresClock(env, s, turned);
      SendFreshReleases(env, turned, m, t, task);
    case Retry(i) => ResendReleases(env, s, i, t, task);
  }

  lemma AdvanceReleases(env: Env, s: State, t: State, task: Task)
    requires Reachable(env) && Inv(env, s) && t == Advance(env, s) && task in t.queue.tasks
    ensures (task in s.queue.tasks && Tries(t.air, task.unit) == Tries(s.air, task.unit))
         || exists v: Unit :: v.message < |env.messages| && Tries(t.air, v) > Tries(s.air, v) && Releases(env, s, t, v, task)
                        && !(task in s.queue.tasks && task.unit != v)
  {
    var choice := if Done(env, s) then Idle else Choose(env, s);
    if !choice.Idle? {
      var u := Target(env, s, choice);
      ActReleases(env, s, choice, t, task);
      ActSends(env, s, choice, t, u);
      ActSends(env, s, choice, t, task.unit);
    }
  }

  lemma IterationReleases(env: Env, h: History, i: nat)
    requires Reachable(env) && Follows(env, h, i) && Inv(env, h(i))
    ensures QueueMoves(env, h, i)
  {
    forall task | task in h(i + 1).queue.tasks
      ensures (task in h(i).queue.tasks && !SentIn(h, i, task.unit)) || exists v :: ReleasedBy(env, h, task, i, v)
    {
      AdvanceReleases(env, h(i), h(i + 1), task);
      if !(task in h(i).queue.tasks && !SentIn(h, i, task.unit)) {
        var v: Unit :| v.message < |env.messages| && Tries(h(i + 1).air, v) > Tries(h(i).air, v)
          && Releases(env, h(i), h(i + 1), v, task) && !(task in h(i).queue.tasks && task.unit != v);
        assert ReleasedBy(env, h, task, i, v);
      }
    }
  }

  // ---- Every run ----

  /** A chunk has arrived exactly if some attempt of it landed, and at the earliest landing. */
  lemma ArrivalIsEarliestLanding(env: Env, h: History, n: nat, u: Unit)
    requires Sane(env) && IsRun(env, h)
    ensures EarliestLanding(env, h, n, u)
  {
    forall i: nat
      ensures TimesMove(env, h, i, u)
    {
      assert Follows(env, h, i);
      IterationTimes(env, h, i, u);
    }
    LandingsOf(env, h, n, u);
  }

  /** A chunk's first-send time is the end of its first attempt. */
  lemma FirstSendIsFirstAttempt(env: Env, h: History, n: nat, u: Unit)
    requires Sane(env) && IsRun(env, h)
    ensures u in h(n).air.firstSend ==> exists i :: 0 <= i < n && FirstSentIn(h, i, u) && h(n).air.firstSend[u] == EndOf(h, i)
    ensures u !in h(n).air.firstSend ==> forall i :: 0 <= i < n ==> !SentIn(h, i, u)
  {
    forall i: nat
      ensures TimesMove(env, h, i, u)
    {
      assert Follows(env, h, i);
      IterationTimes(env, h, i, u);
    }
    FirstSendsOf(env, h, n, u);
  }

  lemma LinkAlwaysMoves(env: Env, h: History)
    requires Sane(env) && IsRun(env, h)
    ensures forall i: nat :: LinkMoves(env, h(i), h(i + 1))
    ensures forall i: nat :: !Busy(h(i), h(i + 1)) ==> Sent(h(i + 1)) == Sent(h(i))
  {
    forall i: nat
      ensures LinkMoves(env, h(i), h(i + 1)) && (!Busy(h(i), h(i + 1)) ==> Sent(h(i + 1)) == Sent(h(i)))
    {
      assert Follows(env, h, i);
      IterationOccupies(env, h(i), h(i + 1));
    }
  }

  lemma StartTime(env: Env, s: State)
    requires Sane(env) && s == Start(env)
    ensures Sent(s) == SetupBytes(env) && s.free == SetupBlocking(env) + Serialization(env.link, SetupBytes(env))
  {
  }

  lemma TimeFromTheStart(env: Env, sent: int, free: real, waited: real)
    requires Sane(env) && sent >= SetupBytes(env)
    requires free == SetupBlocking(env) + Serialization(env.link, SetupBytes(env))
                     + Serialization(env.link, sent - SetupBytes(env)) + waited
    ensures free == SetupBlocking(env) + (sent * 8) as real / env.link.bandwidth + waited
  {
    SerializationAdds(env.link, SetupBytes(env), sent - SetupBytes(env));
  }

  /**
   * The link's time adds up: after every iteration its clock is the setup's blocking time, the serialization
   * of every setup and data byte sent so far, one packet after the other, and the time spent waiting.
   */
  lemma LinkTimeAddsUp(env: Env, h: History, n: nat)
    requires Sane(env) && IsRun(env, h)
    ensures Sent(h(n)) >= 0
    ensures h(n).free == SetupBlocking(env) + (Sent(h(n)) * 8) as real / env.link.bandwidth + Waited(h, n)
  {
    LinkAlwaysMoves(env, h);
    LinkTimeOf(env, h, n);
    StartTime(env, h(0));
    TimeFromTheStart(env, Sent(h(n)), h(n).free, Waited(h, n));
  }

  /** Every queued retransmission was released by a packet of its message, the right delay after it left. */
  lemma TasksAreTimed(env: Env, h: History, n: nat, task: Task)
    requires Reachable(env) && IsRun(env, h) && task in h(n).queue.tasks
    ensures ReleasedBefore(env, h, n, task)
  {
    forall i: nat
      ensures QueueMoves(env, h, i)
    {
      assert Follows(env, h, i);
      RunKeepsInv(env, h, i);
      IterationReleases(env, h, i);
    }
    ReleasesOf(env, h, n, task);
  }

  lemma TriesNeverFall(env: Env, h: History, n: nat, u: Unit)
    requires Sane(env) && IsRun(env, h)
    ensures Tries(h(n).air, u) <= Tries(h(n + 1).air, u)
  {
    assert Follows(env, h, n);
    AdvanceSendsWhatIsDue(env, h(n), h(n + 1), u);
  }

  lemma {:induction false} SentMeansTried(env: Env, h: History, i: nat, j: nat, u: Unit)
    requires Sane(env) && IsRun(env, h) && i < j && SentIn(h, i, u)
    ensures Tries(h(j).air, u) > 0
    decreases j
  {
    if i + 1 < j {
      SentMeansTried(env, h, i, j - 1, u);
      TriesNeverFall(env, h, j - 1, u);
    }
  }

  lemma RunKeepsInv(env: Env, h: History, n: nat)
    requires Reachable(env) && IsRun(env, h)
    ensures Inv(env, h(n))
  {
    RunIsAfter(env, h, n);
    InvAlwaysHolds(env, n);
  }

  lemma EndsNeverFall(env: Env, h: History, i: nat, j: nat)
    requires Sane(env) && IsRun(env, h) && i <= j
    ensures EndOf(h, i) <= EndOf(h, j)
  {
    LinkAlwaysMoves(env, h);
    FreeNeverFalls(env, h, i + 1, j + 1);
  }

  /** A chunk that was sent before is only due as a released task. */
  lemma SentAgainIsATask(env: Env, s: State, t: State, u: Unit) returns (task: Task)
    requires Reachable(env) && Inv(env, s) && t == Advance(env, s) && Tries(t.air, u) > Tries(s.air, u) > 0
    ensures task in s.queue.tasks && task.unit == u && task.release <= s.free
  {
    AdvanceSendsWhatIsDue(env, s, t, u);
    var rank :| DueAs(env, s, u, rank);
    if rank.NewControl? || rank.NewBulk? {
      FreshIsUntried(env, s, u);
    }
    var kind := if rank.OldControl? then Control else Bulk;
    var i :| 0 <= i < |s.queue.tasks| && FirstTask(env, s, kind, i) && s.queue.tasks[i].unit == u;
    task := s.queue.tasks[i];
  }

  lemma FreshIsUntried(env: Env, s: State, u: Unit)
    requires Reachable(env) && Inv(env, s) && u.message < |env.messages| && u.chunk == s.queue.next[u.message] < Chunks(env, u.message)
    ensures Tries(s.air, u) == 0
  {
    assert MessageOk(env, s, u.message);
    assert UnitOk(env, s, Unit(u.message, u.chunk));
  }

  /** No chunk is sent again before a full round trip has passed since its last attempt left. */
  lemma RetransmissionsWait(env: Env, h: History, i: nat, j: nat, u: Unit)
    requires Reachable(env) && IsRun(env, h) && i < j && SentIn(h, i, u) && SentIn(h, j, u)
    ensures h(j).free >= EndOf(h, i) + env.link.rtt
  {
    SentMeansTried(env, h, i, j, u);
    RunKeepsInv(env, h, j);
    assert Follows(env, h, j);
    var task := SentAgainIsATask(env, h(j), h(j + 1), u);
    TasksAreTimed(env, h, j, task);
    var k, v :| 0 <= k < j && ReleasedBy(env, h, task, k, v) && NotSentSince(h, k, j, task.unit);
    EndsNeverFall(env, h, i, k);
    RetryDelayIsARoundTrip(env, v.message, 0.0);
  }
}
