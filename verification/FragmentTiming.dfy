/**
 * Times and sender state of the recovery simulator, for every policy and link: when a completed transfer
 * completed, what a recovery round costs in round trips, when the sender falls quiet, and how the wire
 * bytes divide into what the sender keeps, retransmissions and control.
 */
module FragmentTiming {
  import opened Options
  import opened FragmentGeometry
  import opened FragmentRecovery
  import opened FragmentAccounting
  import opened FragmentLockstep
  import opened FragmentParity

  // ---- A completion time exists exactly when the transfer is complete ----

  ghost predicate Marked(t: Transfer) {
    t.timing.done.Some? <==> Complete(t)
  }

  lemma MissingMeansRemaining(units: seq<DataUnit>, rx: Receiver, i: nat)
    requires ReceiverBooks(units, rx) && i < |units| && !rx.received[i]
    ensures rx.remaining > 0
  {
    TakeCounts(rx.received, i, |units|);
  }

  lemma SendKeepsMark(s: Setup, policy: Policy, round: nat, t: Transfer, i: nat)
    requires Books(s, t) && Marked(t) && i < |s.units|
    ensures Marked(Send(s, policy, round, t, i))
  {
    if !t.receiver.received[i] {
      MissingMeansRemaining(s.units, t.receiver, i);
    }
  }

  lemma {:induction false} FlyKeepsMark(s: Setup, policy: Policy, round: nat, t: Transfer, k: nat)
    requires Books(s, t) && Marked(t) && k <= |s.units|
    ensures Marked(Fly(s, policy, round, t, k))
  {
    if k > 0 {
      FlyKeepsMark(s, policy, round, t, k - 1);
      FlyKeepsBooks(s, policy, round, t, k - 1);
      SendKeepsMark(s, policy, round, Fly(s, policy, round, t, k - 1), k - 1);
    }
  }

  lemma RestoreKeepsMark(s: Setup, t: Transfer, lone: Option<nat>, arrival: Seconds)
    requires Books(s, t) && Marked(t) && (lone.Some? ==> lone.value < |s.units| && !t.receiver.received[lone.value])
    ensures Marked(Restore(s, t, lone, arrival))
  {
    if lone.Some? {
      MissingMeansRemaining(s.units, t.receiver, lone.value);
    }
  }

  lemma {:induction false} RecoverGroupsKeepMark(s: Setup, t: Transfer, k: nat)
    requires Books(s, t) && Marked(t) && k <= GroupCount(|s.units|)
    ensures Marked(RecoverGroups(s, t, k))
  {
    if k > 0 {
      RecoverGroupsKeepMark(s, t, k - 1);
      RecoverGroupsKeepBooks(s, t, k - 1);
      var before := RecoverGroups(s, t, k - 1);
      RestoreKeepsMark(s, before, Lone(s, before.receiver.received, k - 1), ParityCursor(s, t.timing.cursor, k) + OneWay(s.link));
    }
  }

  lemma FirstFlightKeepsMark(s: Setup, policy: Policy, t: Transfer)
    requires Books(s, t) && Marked(t)
    ensures Marked(FirstFlight(s, policy, t))
  {
    if policy.Xor8Plus1? {
      var lost := t.(report := t.report.(initialLoss := MissingUseful(s.units, t.receiver.received)));
      var tally := ParityTally(s, lost.receiver.received, GroupCount(|s.units|));
      RecoverGroupsKeepMark(s, HoldParity(s, lost, tally), GroupCount(|s.units|));
    }
  }

  lemma RoundKeepsMark(s: Setup, policy: Policy, round: nat, t: Transfer)
    requires Books(s, t) && Marked(t)
    ensures Marked(Advance(s, policy, round, t))
  {
    FlyKeepsMark(s, policy, round, t, |s.units|);
    FlyKeepsBooks(s, policy, round, t, |s.units|);
    FirstFlightKeepsMark(s, policy, Fly(s, policy, round, t, |s.units|));
  }

  /** After any number of rounds there is a completion time if and only if the transfer is complete. */
  lemma {:induction false} CompletionIsTimed(s: Setup, policy: Policy, rounds: nat)
    requires s.units != []
    ensures After(s, policy, rounds).timing.done.Some? <==> Complete(After(s, policy, rounds))
  {
    if rounds > 0 {
      CompletionIsTimed(s, policy, rounds - 1);
      BooksAlwaysBalance(s, policy, rounds - 1);
      RoundKeepsMark(s, policy, rounds - 1, After(s, policy, rounds - 1));
    }
  }

  // ---- What a round costs ----

  /** Seen from a round that started at `start`: time moved on, and a completion lies a one-way delay inside the round. */
  ghost predicate Since(s: Setup, start: Seconds, timing: Timing) {
    && start <= timing.cursor
    && (timing.done.Some? ==> start + OneWay(s.link) <= timing.done.value <= timing.cursor + OneWay(s.link))
  }

  lemma {:induction false} FlySince(s: Setup, policy: Policy, round: nat, t: Transfer, k: nat, start: Seconds)
    requires Shaped(s, t) && k <= |s.units| && Since(s, start, t.timing)
    ensures Since(s, start, Fly(s, policy, round, t, k).timing)
  {
    if k > 0 {
      FlySince(s, policy, round, t, k - 1, start);
    }
  }

  lemma {:induction false} ParityCursorGrows(s: Setup, start: Seconds, j: nat, k: nat)
    requires j <= k <= GroupCount(|s.units|)
    ensures ParityCursor(s, start, j) <= ParityCursor(s, start, k)
  {
    if j < k {
      ParityCursorGrows(s, start, j, k - 1);
    }
  }

  lemma {:induction false} RecoverGroupsSince(s: Setup, t: Transfer, k: nat, start: Seconds)
    requires Shaped(s, t) && k <= GroupCount(|s.units|) && Since(s, start, t.timing)
    ensures Since(s, start, Timing(ParityCursor(s, t.timing.cursor, k), RecoverGroups(s, t, k).timing.done))
  {
    ParityCursorGrows(s, t.timing.cursor, 0, k);
    if k > 0 {
      RecoverGroupsSince(s, t, k - 1, start);
      ParityCursorGrows(s, t.timing.cursor, k - 1, k);
    }
  }

  lemma FirstFlightSince(s: Setup, policy: Policy, t: Transfer, start: Seconds)
    requires Shaped(s, t) && Since(s, start, t.timing)
    ensures Since(s, start, FirstFlight(s, policy, t).timing)
  {
    if policy.Xor8Plus1? {
      var lost := t.(report := t.report.(initialLoss := MissingUseful(s.units, t.receiver.received)));
      var tally := ParityTally(s, lost.receiver.received, GroupCount(|s.units|));
      RecoverGroupsSince(s, HoldParity(s, lost, tally), GroupCount(|s.units|), start);
      ParityCursorGrows(s, t.timing.cursor, 0, GroupCount(|s.units|));
    }
  }

  lemma FlightSince(s: Setup, policy: Policy, round: nat, t: Transfer)
    requires Shaped(s, t) && t.timing.done.None?
    ensures Since(s, t.timing.cursor, Flight(s, policy, round, t).timing)
  {
    FlySince(s, policy, round, t, |s.units|, t.timing.cursor);
    FirstFlightSince(s, policy, Fly(s, policy, round, t, |s.units|), t.timing.cursor);
  }

  function RoundTrips(link: Link, rounds: nat): Seconds {
    if rounds == 0 then 0.0 else RoundTrips(link, rounds - 1) + link.rtt
  }

  lemma {:induction false} RoundTripsMultiply(link: Link, rounds: nat)
    ensures RoundTrips(link, rounds) == rounds as real * link.rtt
  {
    if rounds > 0 {
      RoundTripsMultiply(link, rounds - 1);
    }
  }

  /** Handing over to the next round takes a round trip or more. */
  lemma HandOverWaits(s: Setup, policy: Policy, t: Transfer)
    ensures HandOver(s, policy, t).timing.cursor >= t.timing.cursor + s.link.rtt
    ensures HandOver(s, policy, t).timing.done == t.timing.done
  {
  }

  lemma OneRound(s: Setup, policy: Policy, round: nat, t: Transfer, r: Transfer)
    requires Shaped(s, t) && !Complete(t) && t.timing.done.None? && r == Advance(s, policy, round, t)
    ensures !Complete(r) ==> r.timing.cursor >= t.timing.cursor + s.link.rtt
    ensures Complete(r) ==> Since(s, t.timing.cursor, r.timing)
  {
    FlightSince(s, policy, round, t);
    HandOverWaits(s, policy, Flight(s, policy, round, t));
  }

  /** Every incomplete round cost at least a round trip before the next one started. */
  lemma {:induction false} RoundsCostRoundTrips(s: Setup, policy: Policy, rounds: nat, t: Transfer)
    requires s.units != [] && t == After(s, policy, rounds) && !Complete(t)
    ensures t.timing.cursor >= RoundTrips(s.link, rounds)
  {
    if rounds > 0 {
      var before := After(s, policy, rounds - 1);
      CompletionIsTimed(s, policy, rounds - 1);
      RoundsCostRoundTrips(s, policy, rounds - 1, before);
      OneRound(s, policy, rounds - 1, before, t);
    }
  }

  /** The sender is not quiet before its last datagram left and, given a report to wait for, it arrived. */
  lemma QuiescenceIsLast(s: Setup, policy: Policy, t: Transfer)
    requires t.timing.done.Some?
    ensures Quiescence(s, policy, t) >= t.timing.cursor && Quiescence(s, policy, t) >= t.timing.done.value
    ensures !policy.WholeRetry? ==> Quiescence(s, policy, t) >= t.timing.done.value + OneWay(s.link)
  {
  }

  /**
   * A transfer that completes in flight `rounds` does so no sooner than that many round trips and a
   * one-way delay after it began, and no later than a one-way delay after its last datagram left. Its
   * sender falls quiet no sooner than that: with recovery by report, only once an acknowledgement
   * has made its way back.
   */
  lemma CompletionAndQuiescence(s: Setup, policy: Policy, rounds: nat, last: Transfer)
    requires s.units != [] && CompletesIn(s, policy, rounds) && last == After(s, policy, rounds + 1)
    ensures last.timing.done.Some?
    ensures RoundTrips(s.link, rounds) + OneWay(s.link) <= last.timing.done.value <= last.timing.cursor + OneWay(s.link)
    ensures Quiescence(s, policy, last) >= last.timing.cursor && Quiescence(s, policy, last) >= last.timing.done.value
    ensures !policy.WholeRetry? ==> Quiescence(s, policy, last) >= last.timing.done.value + OneWay(s.link)
  {
    var before := After(s, policy, rounds);
    CompletionIsTimed(s, policy, rounds);
    CompletionIsTimed(s, policy, rounds + 1);
    RoundsCostRoundTrips(s, policy, rounds, before);
    OneRound(s, policy, rounds, before, last);
    QuiescenceIsLast(s, policy, last);
  }

  // ---- What the sender keeps ----

  lemma {:induction false} FlyKeepsParityCost(s: Setup, policy: Policy, round: nat, t: Transfer, k: nat)
    requires Shaped(s, t) && k <= |s.units|
    ensures Fly(s, policy, round, t, k).cost.parity == t.cost.parity
  {
    if k > 0 {
      FlyKeepsParityCost(s, policy, round, t, k - 1);
    }
  }

  lemma {:induction false} TallyWeighsParity(s: Setup, received: seq<bool>, k: nat)
    requires |received| == |s.units| && k <= GroupCount(|s.units|)
    ensures ParityTally(s, received, k).wire == ParityWireUpTo(s, k)
  {
    if k > 0 {
      TallyWeighsParity(s, received, k - 1);
    }
  }

  lemma FirstFlightParityCost(s: Setup, policy: Policy, t: Transfer)
    requires Books(s, t)
    ensures FirstFlight(s, policy, t).cost.parity
         == t.cost.parity + if policy.Xor8Plus1? then ParityWireUpTo(s, GroupCount(|s.units|)) else 0
  {
    if policy.Xor8Plus1? {
      var lost := t.(report := t.report.(initialLoss := MissingUseful(s.units, t.receiver.received)));
      var tally := ParityTally(s, lost.receiver.received, GroupCount(|s.units|));
      TallyWeighsParity(s, lost.receiver.received, GroupCount(|s.units|));
      RecoverGroupsKeepBooks(s, HoldParity(s, lost, tally), GroupCount(|s.units|));
    }
  }

  lemma AdvanceParityCost(s: Setup, policy: Policy, round: nat, t: Transfer)
    requires Books(s, t) && !Complete(t)
    ensures Advance(s, policy, round, t).cost.parity
         == t.cost.parity + if round == 0 && policy.Xor8Plus1? then ParityWireUpTo(s, GroupCount(|s.units|)) else 0
  {
    FlyKeepsParityCost(s, policy, round, t, |s.units|);
    FlyKeepsBooks(s, policy, round, t, |s.units|);
    FirstFlightParityCost(s, policy, Fly(s, policy, round, t, |s.units|));
  }

  lemma {:induction false} ParityIsSentOnce(s: Setup, policy: Policy, rounds: nat)
    requires s.units != [] && rounds > 0
    ensures After(s, policy, rounds).cost.parity == if policy.Xor8Plus1? then ParityWireUpTo(s, GroupCount(|s.units|)) else 0
  {
    BooksAlwaysBalance(s, policy, rounds - 1);
    if rounds == 1 {
      AdvanceParityCost(s, policy, 0, Start(s));
    } else {
      ParityIsSentOnce(s, policy, rounds - 1);
      if !Complete(After(s, policy, rounds - 1)) {
        AdvanceParityCost(s, policy, rounds - 1, After(s, policy, rounds - 1));
      }
    }
  }

  lemma {:induction false} OnceWeighsDataWire(s: Setup, k: nat)
    requires k <= |s.units|
    ensures DataBytes(s.units, Once(s), k) == DataWire(s.units, k)
  {
    if k > 0 {
      OnceWeighsDataWire(s, k - 1);
    }
  }

  /**
   * A selective sender keeps exactly what its first flight put on the wire: after every round the wire
   * bytes are that, the retransmissions and the control bytes.
   */
  lemma SenderKeepsItsFirstFlight(s: Setup, policy: Policy, rounds: nat)
    requires s.units != [] && rounds > 0 && !policy.WholeRetry?
    ensures var cost := After(s, policy, rounds).cost;
      cost.wire == SenderState(s, policy) + cost.retransmitted + cost.control
  {
    BooksAlwaysBalance(s, policy, rounds);
    RetransmissionsAddUp(s, policy, rounds);
    ParityIsSentOnce(s, policy, rounds);
    OnceWeighsDataWire(s, |s.units|);
  }
}
