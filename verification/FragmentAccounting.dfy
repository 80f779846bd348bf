/**
 * Conservation laws of the recovery simulator, for every policy, link and number of rounds: what is
 * counted as remaining, retained, lost, recovered and put on the wire always adds up.
 */
module FragmentAccounting {
  import opened Options
  import opened FragmentGeometry
  import opened FragmentRecovery

  function MissingCount(received: seq<bool>, k: nat): nat
    requires k <= |received|
  {
    if k == 0 then 0 else MissingCount(received, k - 1) + if received[k - 1] then 0 else 1
  }

  /** Data bytes put on the wire when unit `i` was sent `attempts[i]` times, over the first `k` units. */
  function DataBytes(units: seq<DataUnit>, attempts: seq<nat>, k: nat): nat
    requires k <= |units| == |attempts|
  {
    if k == 0 then 0 else DataBytes(units, attempts, k - 1) + units[k - 1].wireLen * attempts[k - 1]
  }

  lemma {:induction false} TakeCounts(received: seq<bool>, i: nat, k: nat)
    requires i < |received| && !received[i] && k <= |received|
    ensures MissingCount(received, k) == MissingCount(received[i := true], k) + if i < k then 1 else 0
  {
    if k > 0 {
      TakeCounts(received, i, k - 1);
    }
  }

  lemma {:induction false} TakeUseful(units: seq<DataUnit>, received: seq<bool>, i: nat, k: nat)
    requires |units| == |received| && i < |received| && !received[i] && k <= |received|
    ensures MissingUsefulUpTo(units, received, k)
         == MissingUsefulUpTo(units, received[i := true], k) + if i < k then units[i].usefulLen else 0
  {
    if k > 0 {
      TakeUseful(units, received, i, k - 1);
    }
  }

  lemma {:induction false} SendWeighs(units: seq<DataUnit>, attempts: seq<nat>, i: nat, k: nat)
    requires |units| == |attempts| && i < |attempts| && k <= |units|
    ensures DataBytes(units, attempts[i := attempts[i] + 1], k)
         == DataBytes(units, attempts, k) + if i < k then units[i].wireLen else 0
  {
    if k > 0 {
      SendWeighs(units, attempts, i, k - 1);
    }
  }

  lemma {:induction false} NothingMissing(units: seq<DataUnit>, received: seq<bool>, k: nat)
    requires k <= |received| == |units|
    ensures MissingCount(received, k) == 0 <==> forall i :: 0 <= i < k ==> received[i]
    ensures MissingCount(received, k) == 0 ==> MissingUsefulUpTo(units, received, k) == 0
  {
    if k > 0 {
      NothingMissing(units, received, k - 1);
    }
  }

  /** The receiver's books: units and bytes still missing, and bytes already retained. */
  ghost predicate ReceiverBooks(units: seq<DataUnit>, rx: Receiver) {
    && |rx.received| == |units|
    && rx.remaining == MissingCount(rx.received, |units|)
    && rx.retained + MissingUseful(units, rx.received) == TotalUseful(units)
  }

  /** The sender's books: every byte on the wire is a data attempt, parity or control. */
  ghost predicate SenderBooks(s: Setup, t: Transfer) {
    && Shaped(s, t)
    && t.cost.wire == DataBytes(s.units, t.attempts, |s.units|) + t.cost.parity + t.cost.control
  }

  /** Data bytes not accounted as retransmissions. */
  ghost function FirstBytes(s: Setup, t: Transfer): int
    requires Shaped(s, t)
  {
    DataBytes(s.units, t.attempts, |s.units|) - t.cost.retransmitted
  }

  ghost predicate Books(s: Setup, t: Transfer) {
    ReceiverBooks(s.units, t.receiver) && SenderBooks(s, t)
  }

  lemma TakeKeepsBooks(units: seq<DataUnit>, rx: Receiver, i: nat)
    requires ReceiverBooks(units, rx) && i < |units| && !rx.received[i]
    ensures ReceiverBooks(units, Take(rx, i, units[i].usefulLen))
    ensures MissingUseful(units, Take(rx, i, units[i].usefulLen).received) == MissingUseful(units, rx.received) - units[i].usefulLen
  {
    TakeCounts(rx.received, i, |units|);
    TakeUseful(units, rx.received, i, |units|);
  }

  lemma SendKeepsBooks(s: Setup, policy: Policy, round: nat, t: Transfer, i: nat)
    requires Books(s, t) && i < |s.units|
    ensures Books(s, Send(s, policy, round, t, i))
    ensures round > 0 ==> FirstBytes(s, Send(s, policy, round, t, i)) == FirstBytes(s, t)
  {
    SendWeighs(s.units, t.attempts, i, |s.units|);
    if !t.receiver.received[i] {
      TakeKeepsBooks(s.units, t.receiver, i);
    }
  }

  lemma {:induction false} FlyKeepsBooks(s: Setup, policy: Policy, round: nat, t: Transfer, k: nat)
    requires Books(s, t) && k <= |s.units|
    ensures Books(s, Fly(s, policy, round, t, k))
    ensures round > 0 ==> FirstBytes(s, Fly(s, policy, round, t, k)) == FirstBytes(s, t)
  {
    if k > 0 {
      FlyKeepsBooks(s, policy, round, t, k - 1);
      SendKeepsBooks(s, policy, round, Fly(s, policy, round, t, k - 1), k - 1);
    }
  }

  lemma {:induction false} FlyKeepsReport(s: Setup, policy: Policy, round: nat, t: Transfer, k: nat)
    requires Shaped(s, t) && k <= |s.units|
    ensures Fly(s, policy, round, t, k).report == t.report
    ensures round == 0 ==> Fly(s, policy, round, t, k).cost.retransmitted == t.cost.retransmitted
  {
    if k > 0 {
      FlyKeepsReport(s, policy, round, t, k - 1);
    }
  }

  /** Useful bytes lost by the first flight and neither recovered from parity nor still missing. */
  ghost function RecoveryGap(s: Setup, t: Transfer): int
    requires Shaped(s, t)
  {
    t.report.initialLoss - t.report.recoveredUseful - MissingUseful(s.units, t.receiver.received)
  }

  lemma RestoreKeepsBooks(s: Setup, t: Transfer, lone: Option<nat>, arrival: Seconds)
    requires Books(s, t) && (lone.Some? ==> lone.value < |s.units| && !t.receiver.received[lone.value])
    ensures Books(s, Restore(s, t, lone, arrival)) && RecoveryGap(s, Restore(s, t, lone, arrival)) == RecoveryGap(s, t)
  {
    if lone.Some? {
      TakeKeepsBooks(s.units, t.receiver, lone.value);
    }
  }

  lemma {:induction false} RecoverGroupsKeepBooks(s: Setup, t: Transfer, k: nat)
    requires Books(s, t) && k <= GroupCount(|s.units|)
    ensures Books(s, RecoverGroups(s, t, k)) && RecoveryGap(s, RecoverGroups(s, t, k)) == RecoveryGap(s, t)
    ensures RecoverGroups(s, t, k).attempts == t.attempts && RecoverGroups(s, t, k).cost == t.cost
  {
    if k > 0 {
      RecoverGroupsKeepBooks(s, t, k - 1);
      var before := RecoverGroups(s, t, k - 1);
      RestoreKeepsBooks(s, before, Lone(s, before.receiver.received, k - 1), ParityCursor(s, t.timing.cursor, k) + OneWay(s.link));
    }
  }

  lemma UseParityKeepsBooks(s: Setup, t: Transfer, tally: Tally)
    requires Books(s, t)
    ensures Books(s, UseParity(s, t, tally)) && RecoveryGap(s, UseParity(s, t, tally)) == RecoveryGap(s, t)
    ensures UseParity(s, t, tally).attempts == t.attempts
    ensures UseParity(s, t, tally).cost.retransmitted == t.cost.retransmitted
  {
    RecoverGroupsKeepBooks(s, HoldParity(s, t, tally), GroupCount(|s.units|));
  }

  ghost predicate LossExplained(t: Transfer) {
    t.report.initialLoss == t.report.recoveredUseful + t.report.stillMissing
  }

  lemma FirstFlightKeepsBooks(s: Setup, policy: Policy, t: Transfer)
    requires Books(s, t) && t.report.recoveredUseful == 0
    ensures Books(s, FirstFlight(s, policy, t)) && LossExplained(FirstFlight(s, policy, t))
    ensures FirstFlight(s, policy, t).attempts == t.attempts
    ensures FirstFlight(s, policy, t).cost.retransmitted == t.cost.retransmitted
  {
    if policy.Xor8Plus1? {
      var lost := t.(report := t.report.(initialLoss := MissingUseful(s.units, t.receiver.received)));
      UseParityKeepsBooks(s, lost, ParityTally(s, t.receiver.received, GroupCount(|s.units|)));
    }
  }

  lemma FlightKeepsBooks(s: Setup, policy: Policy, round: nat, t: Transfer)
    requires Books(s, t)
    requires if round == 0 then t.report.recoveredUseful == 0 else LossExplained(t)
    ensures Books(s, Flight(s, policy, round, t)) && LossExplained(Flight(s, policy, round, t))
    ensures round > 0 ==> FirstBytes(s, Flight(s, policy, round, t)) == FirstBytes(s, t)
    ensures round == 0 ==> Flight(s, policy, round, t).cost.retransmitted == t.cost.retransmitted
  {
    FlyKeepsBooks(s, policy, round, t, |s.units|);
    FlyKeepsReport(s, policy, round, t, |s.units|);
    if round == 0 {
      FirstFlightKeepsBooks(s, policy, Fly(s, policy, round, t, |s.units|));
    }
  }

  lemma AdvanceKeepsBooks(s: Setup, policy: Policy, round: nat, t: Transfer)
    requires Books(s, t) && !(round == 0 && Complete(t))
    requires if round == 0 then t.report.recoveredUseful == 0 else LossExplained(t)
    ensures Books(s, Advance(s, policy, round, t)) && LossExplained(Advance(s, policy, round, t))
    ensures round > 0 ==> FirstBytes(s, Advance(s, policy, round, t)) == FirstBytes(s, t)
    ensures round == 0 ==> Advance(s, policy, round, t).cost.retransmitted == t.cost.retransmitted
  {
    if !Complete(t) {
      FlightKeepsBooks(s, policy, round, t);
    }
  }

  lemma {:induction false} NothingCountedYet(s: Setup, k: nat)
    requires k <= |s.units|
    ensures MissingCount(Start(s).receiver.received, k) == k
    ensures MissingUsefulUpTo(s.units, Start(s).receiver.received, k) == TotalUseful(s.units[..k])
    ensures DataBytes(s.units, Start(s).attempts, k) == 0
  {
    if k > 0 {
      NothingCountedYet(s, k - 1);
      assert s.units[..k][..k - 1] == s.units[..k - 1];
    }
  }

  lemma StartKeepsBooks(s: Setup)
    ensures Books(s, Start(s))
  {
    NothingCountedYet(s, |s.units|);
    assert s.units[..|s.units|] == s.units;
  }

  /**
   * After any number of rounds under any policy and link: `remaining` counts the missing units,
   * retained and missing bytes add up to the payload, wire bytes are data attempts plus parity plus
   * control, and the first flight's loss is what parity recovered plus what was still missing.
   */
  lemma {:induction false} BooksAlwaysBalance(s: Setup, policy: Policy, rounds: nat)
    requires s.units != []
    ensures Books(s, After(s, policy, rounds))
    ensures rounds > 0 ==> LossExplained(After(s, policy, rounds))
  {
    if rounds == 0 {
      StartKeepsBooks(s);
    } else {
      BooksAlwaysBalance(s, policy, rounds - 1);
      AdvanceKeepsBooks(s, policy, rounds - 1, After(s, policy, rounds - 1));
    }
  }

  /** A completed transfer holds every unit and every byte of the payload. */
  lemma CompletionDeliversEverything(s: Setup, policy: Policy, rounds: nat)
    requires s.units != []
    ensures var rx := After(s, policy, rounds).receiver;
      && (rx.remaining == 0 <==> forall i :: 0 <= i < |s.units| ==> rx.received[i])
      && (rx.remaining == 0 ==> rx.retained == TotalUseful(s.units))
  {
    BooksAlwaysBalance(s, policy, rounds);
    NothingMissing(s.units, After(s, policy, rounds).receiver.received, |s.units|);
  }
}
