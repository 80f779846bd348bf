/**
 * Time, control exchanges and datagrams of the recovery simulator add up exactly, for every policy, link
 * and number of rounds, and the completion time is that of the last missing unit.
 */
module FragmentLedger {
  import opened Options
  import opened FragmentGeometry
  import opened FragmentRecovery
  import opened FragmentAccounting
  import opened FragmentLockstep
  import opened FragmentParity
  import opened FragmentTiming

  // ---- The sender's clock ----

  /** How long `bytes` take on the link. */
  ghost function OnTheWire(link: Link, bytes: int): real {
    (bytes * 8) as real / link.bandwidth as real
  }

  lemma WireTimeAdds(link: Link, a: int, b: int)
    ensures OnTheWire(link, a + b) == OnTheWire(link, a) + OnTheWire(link, b)
  {
  }

  lemma SerializationIsWireTime(link: Link, bytes: nat)
    ensures Serialization(link, bytes) == OnTheWire(link, bytes)
  {
  }

  /** The part of the sender's clock that its data and parity bytes do not account for. */
  ghost function Slack(s: Setup, t: Transfer): real {
    t.timing.cursor - OnTheWire(s.link, t.cost.wire - t.cost.control)
  }

  lemma SendKeepsSlack(s: Setup, policy: Policy, round: nat, t: Transfer, i: nat, r: Transfer)
    requires Shaped(s, t) && i < |s.units| && r == Send(s, policy, round, t, i)
    ensures Slack(s, r) == Slack(s, t) && r.controls == t.controls && r.cost.control == t.cost.control
  {
    SerializationIsWireTime(s.link, s.units[i].wireLen);
    WireTimeAdds(s.link, t.cost.wire - t.cost.control, s.units[i].wireLen);
  }

  lemma {:induction false} FlyKeepsSlack(s: Setup, policy: Policy, round: nat, t: Transfer, k: nat)
    requires Shaped(s, t) && k <= |s.units|
    ensures var r := Fly(s, policy, round, t, k);
      Slack(s, r) == Slack(s, t) && r.controls == t.controls && r.cost.control == t.cost.control
  {
    if k > 0 {
      FlyKeepsSlack(s, policy, round, t, k - 1);
      var before := Fly(s, policy, round, t, k - 1);
      SendKeepsSlack(s, policy, round, before, k - 1, Send(s, policy, round, before, k - 1));
    }
  }

  lemma {:induction false} ParityCursorIsWireTime(s: Setup, start: Seconds, k: nat)
    requires k <= GroupCount(|s.units|)
    ensures ParityCursor(s, start, k) == start + OnTheWire(s.link, ParityWireUpTo(s, k))
  {
    if k > 0 {
      ParityCursorIsWireTime(s, start, k - 1);
      SerializationIsWireTime(s.link, ParityWire(s, k - 1));
      WireTimeAdds(s.link, ParityWireUpTo(s, k - 1), ParityWire(s, k - 1));
    }
  }

  lemma {:induction false} RecoverGroupsCostNothing(s: Setup, t: Transfer, k: nat)
    requires Shaped(s, t) && k <= GroupCount(|s.units|)
    ensures RecoverGroups(s, t, k).cost == t.cost && RecoverGroups(s, t, k).controls == t.controls
  {
    if k > 0 {
      RecoverGroupsCostNothing(s, t, k - 1);
    }
  }

  lemma ParityPhaseKeepsSlack(s: Setup, t: Transfer, r: Transfer)
    requires Shaped(s, t) && r == ParityPhase(s, t)
    ensures Slack(s, r) == Slack(s, t) && r.controls == t.controls && r.cost.control == t.cost.control
  {
    var groups := GroupCount(|s.units|);
    var tally := ParityTally(s, t.receiver.received, groups);
    RecoverGroupsCostNothing(s, HoldParity(s, t, tally), groups);
    TallyWeighsParity(s, t.receiver.received, groups);
    ParityCursorIsWireTime(s, t.timing.cursor, groups);
    WireTimeAdds(s.link, t.cost.wire - t.cost.control, tally.wire);
  }

  lemma FlightKeepsSlack(s: Setup, policy: Policy, round: nat, t: Transfer, r: Transfer)
    requires Shaped(s, t) && r == Flight(s, policy, round, t)
    ensures Slack(s, r) == Slack(s, t) && r.controls == t.controls && r.cost.control == t.cost.control
  {
    FlyKeepsSlack(s, policy, round, t, |s.units|);
    var flown := Fly(s, policy, round, t, |s.units|);
    if round == 0 && policy.Xor8Plus1? {
      var lost := flown.(report := flown.report.(initialLoss := MissingUseful(s.units, flown.receiver.received)));
      ParityPhaseKeepsSlack(s, lost, ParityPhase(s, lost));
    }
  }

  // ---- Between rounds ----

  /** Transmissions of control exchange `c`. */
  ghost function Transmissions(s: Setup, c: nat): nat {
    1 + s.link.controlRetries(c)
  }

  /** From the end of an incomplete flight to the start of the next one. */
  ghost function Pause(s: Setup, policy: Policy, c: nat): real {
    if policy.WholeRetry? then s.link.rtt else Transmissions(s, c) as real * s.link.rtt + OnTheWire(s.link, NackLen(s))
  }

  ghost function Pauses(s: Setup, policy: Policy, rounds: nat): real {
    if rounds == 0 then 0.0 else Pauses(s, policy, rounds - 1) + Pause(s, policy, rounds - 1)
  }

  ghost function ReportBytes(s: Setup, c: nat): nat {
    if c == 0 then 0 else ReportBytes(s, c - 1) + Transmissions(s, c - 1) * NackLen(s)
  }

  /** Between rounds: `rounds` hand-overs so far, each with its pause and, under recovery by report, its control exchange. */
  ghost predicate Ledger(s: Setup, policy: Policy, t: Transfer, rounds: nat) {
    && Slack(s, t) == Pauses(s, policy, rounds)
    && t.controls == (if policy.WholeRetry? then 0 else rounds) && t.cost.control == ReportBytes(s, t.controls)
  }

  lemma OneMoreRoundTrip(retries: nat, rtt: real)
    ensures (1 + retries) as real * rtt == rtt + retries as real * rtt
  {
  }

  lemma HandOverPauses(s: Setup, policy: Policy, t: Transfer, rounds: nat, r: Transfer)
    requires Ledger(s, policy, t, rounds) && r == HandOver(s, policy, t)
    ensures Ledger(s, policy, r, rounds + 1)
  {
    if !policy.WholeRetry? {
      SerializationIsWireTime(s.link, NackLen(s));
      OneMoreRoundTrip(s.link.controlRetries(rounds), s.link.rtt);
      assert r.cost.control == t.cost.control + Transmissions(s, rounds) * NackLen(s);
    }
  }

  lemma AdvanceKeepsLedger(s: Setup, policy: Policy, round: nat, t: Transfer, r: Transfer)
    requires Shaped(s, t) && !Complete(t) && Ledger(s, policy, t, round) && r == Advance(s, policy, round, t)
    ensures Ledger(s, policy, r, if Complete(r) then round else round + 1)
  {
    var flown := Flight(s, policy, round, t);
    FlightKeepsSlack(s, policy, round, t, flown);
    if !Complete(flown) {
      HandOverPauses(s, policy, flown, round, r);
    }
  }

  /**
   * The ledger after every round: while incomplete, the sender's clock is the time its data and parity bytes
   * took on the link plus one pause per round, and its control bytes are those of one report per round.
   */
  lemma {:induction false} TimeAddsUp(s: Setup, policy: Policy, rounds: nat, t: Transfer)
    requires s.units != [] && t == After(s, policy, rounds) && !Complete(t)
    ensures Ledger(s, policy, t, rounds)
  {
    if rounds > 0 {
      var before := After(s, policy, rounds - 1);
      TimeAddsUp(s, policy, rounds - 1, before);
      AdvanceKeepsLedger(s, policy, rounds - 1, before, t);
    }
  }

  /** ... and at completion no pause and no report has been added for the completing flight. */
  lemma CompletedTimeAddsUp(s: Setup, policy: Policy, rounds: nat, last: Transfer)
    requires s.units != [] && CompletesIn(s, policy, rounds) && last == After(s, policy, rounds + 1)
    ensures Ledger(s, policy, last, rounds)
  {
    TimeAddsUp(s, policy, rounds, After(s, policy, rounds));
    AdvanceKeepsLedger(s, policy, rounds, After(s, policy, rounds), last);
  }

  // ---- Completion ----

  /** `i` is the last unit the flight has to deliver. */
  ghost predicate LastMissing(received: seq<bool>, i: nat) {
    i < |received| && !received[i] && forall j :: i < j < |received| ==> received[j]
  }

  /** A flight completes the payload with the last unit that was missing, a one-way delay after it left. */
  ghost predicate CompletesWithLast(s: Setup, policy: Policy, round: nat, t: Transfer, k: nat)
    requires Shaped(s, t) && k <= |s.units|
  {
    var r := Fly(s, policy, round, t, k);
    r.receiver.remaining == 0 ==>
      exists i :: 0 <= i < k && LastMissing(t.receiver.received, i)
        && r.timing.done == Some(Fly(s, policy, round, t, i + 1).timing.cursor + s.link.rtt / 2.0)
  }

  /** The flight up to unit `k` and one further. */
  ghost predicate OneFurther(s: Setup, policy: Policy, round: nat, t: Transfer, k: nat, before: Transfer, r: Transfer)
    requires Shaped(s, t) && k < |s.units|
  {
    before == Fly(s, policy, round, t, k) && r == Fly(s, policy, round, t, k + 1)
  }

  lemma CompletingUnitIsLastMissing(s: Setup, policy: Policy, round: nat, t: Transfer, k: nat, before: Transfer, r: Transfer)
    requires Books(s, t) && k < |s.units| && OneFurther(s, policy, round, t, k, before, r)
    requires before.receiver.remaining != 0 && r.receiver.remaining == 0
    ensures LastMissing(t.receiver.received, k)
  {
    FlyKeepsBooks(s, policy, round, t, k + 1);
    NothingMissing(s.units, r.receiver.received, |s.units|);
    FlightCarries(s, policy, round, t, k, k);
    forall j | k < j < |s.units|
      ensures t.receiver.received[j]
    {
      FlightCarries(s, policy, round, t, k + 1, j);
    }
  }

  lemma CompletingUnitIsTimed(s: Setup, policy: Policy, round: nat, before: Transfer, k: nat, r: Transfer)
    requires Shaped(s, before) && k < |s.units| && before.receiver.remaining != 0 && r.receiver.remaining == 0
    requires r == Send(s, policy, round, before, k)
    ensures r.timing.done == Some(r.timing.cursor + s.link.rtt / 2.0)
  {
  }

  lemma NothingLeftToComplete(s: Setup, policy: Policy, round: nat, t: Transfer, k: nat, before: Transfer, r: Transfer)
    requires Books(s, t) && k < |s.units| && OneFurther(s, policy, round, t, k, before, r) && before.receiver.remaining == 0
    ensures r.receiver == before.receiver && r.timing.done == before.timing.done
  {
    FlyKeepsBooks(s, policy, round, t, k);
    NothingMissing(s.units, before.receiver.received, |s.units|);
    SendOfReceivedKeepsDone(s, policy, round, before, k);
  }

  lemma CompletesNext(s: Setup, policy: Policy, round: nat, t: Transfer, k: nat, before: Transfer, r: Transfer)
    requires Books(s, t) && k < |s.units| && OneFurther(s, policy, round, t, k, before, r) && CompletesWithLast(s, policy, round, t, k)
    ensures CompletesWithLast(s, policy, round, t, k + 1)
  {
    if before.receiver.remaining == 0 {
      NothingLeftToComplete(s, policy, round, t, k, before, r);
    } else if r.receiver.remaining == 0 {
      CompletingUnitIsLastMissing(s, policy, round, t, k, before, r);
      CompletingUnitIsTimed(s, policy, round, before, k, r);
    }
  }

  lemma SendOfReceivedKeepsDone(s: Setup, policy: Policy, round: nat, t: Transfer, i: nat)
    requires Shaped(s, t) && i < |s.units| && t.receiver.received[i]
    ensures Send(s, policy, round, t, i).timing.done == t.timing.done && Send(s, policy, round, t, i).receiver == t.receiver
  {
  }

  lemma {:induction false} FlightCompletes(s: Setup, policy: Policy, round: nat, t: Transfer, k: nat)
    requires Books(s, t) && t.receiver.remaining > 0 && k <= |s.units|
    ensures CompletesWithLast(s, policy, round, t, k)
  {
    if k > 0 {
      FlightCompletes(s, policy, round, t, k - 1);
      CompletesNext(s, policy, round, t, k - 1, Fly(s, policy, round, t, k - 1), Fly(s, policy, round, t, k));
    }
  }

  /**
   * Without parity a transfer completes exactly when the last unit still missing at the start of the
   * completing flight lands, half a round trip after it left.
   */
  lemma CompletionIsLastMissing(s: Setup, policy: Policy, rounds: nat, t: Transfer, last: Transfer) returns (i: nat)
    requires s.units != [] && !policy.Xor8Plus1? && CompletesIn(s, policy, rounds)
    requires t == After(s, policy, rounds) && last == After(s, policy, rounds + 1)
    ensures LastMissing(t.receiver.received, i) && i < |s.units|
    ensures last.timing.done == Some(Fly(s, policy, rounds, t, i + 1).timing.cursor + s.link.rtt / 2.0)
  {
    BooksAlwaysBalance(s, policy, rounds);
    FlightCompletes(s, policy, rounds, t, |s.units|);
    var found: nat :| found < |s.units| && LastMissing(t.receiver.received, found)
      && Fly(s, policy, rounds, t, |s.units|).timing.done == Some(Fly(s, policy, rounds, t, found + 1).timing.cursor + s.link.rtt / 2.0);
    i := found;
  }

  /** Group `g` gets a unit back in its turn. */
  ghost predicate Helps(s: Setup, t: Transfer, g: nat)
    requires Shaped(s, t) && g < GroupCount(|s.units|)
  {
    Lone(s, RecoverGroups(s, t, g).receiver.received, g).Some?
  }

  ghost predicate NoneHelps(s: Setup, t: Transfer, g: nat, k: nat)
    requires Shaped(s, t) && k <= GroupCount(|s.units|)
  {
    forall later :: g < later < k ==> !Helps(s, t, later)
  }

  /** `r` was done when the parity of group `g`, sent after the data of `t`, arrived. */
  ghost predicate DoneWithGroup(s: Setup, t: Transfer, r: Transfer, g: nat)
    requires g < GroupCount(|s.units|)
  {
    r.timing.done == Some(t.timing.cursor + OnTheWire(s.link, ParityWireUpTo(s, g + 1)) + s.link.rtt / 2.0)
  }

  lemma IdleGroupChangesNothing(s: Setup, t: Transfer, g: nat)
    requires Shaped(s, t) && g < GroupCount(|s.units|) && !Helps(s, t, g)
    ensures RecoverGroups(s, t, g + 1) == RecoverGroups(s, t, g)
  {
  }

  lemma HelpingGroupIsTimed(s: Setup, t: Transfer, g: nat, r: Transfer)
    requires Shaped(s, t) && g < GroupCount(|s.units|) && Helps(s, t, g) && r == RecoverGroups(s, t, g + 1)
    requires r.receiver.remaining == 0
    ensures r.timing.done == Some(ParityCursor(s, t.timing.cursor, g + 1) + OneWay(s.link))
  {
  }

  lemma HelpingGroupCompletes(s: Setup, t: Transfer, g: nat, r: Transfer)
    requires Shaped(s, t) && g < GroupCount(|s.units|) && Helps(s, t, g) && r == RecoverGroups(s, t, g + 1)
    requires r.receiver.remaining == 0
    ensures DoneWithGroup(s, t, r, g)
  {
    HelpingGroupIsTimed(s, t, g, r);
    ParityCursorIsWireTime(s, t.timing.cursor, g + 1);
  }

  /** Parity that completes the payload does so with the last group it helps, half a round trip after that parity left. */
  lemma {:induction false} ParityCompletes(s: Setup, t: Transfer, k: nat, r: Transfer) returns (g: nat)
    requires Shaped(s, t) && t.receiver.remaining > 0 && k <= GroupCount(|s.units|)
    requires r == RecoverGroups(s, t, k) && r.receiver.remaining == 0
    ensures g < k && Helps(s, t, g) && NoneHelps(s, t, g, k) && DoneWithGroup(s, t, r, g)
  {
    var last := k - 1;
    if Helps(s, t, last) {
      g := last;
      HelpingGroupCompletes(s, t, last, r);
    } else {
      IdleGroupChangesNothing(s, t, last);
      g := ParityCompletes(s, t, last, r);
    }
  }

  /**
   * The sender of a completed transfer is quiet when its last datagram has left and, under recovery by
   * report, the acknowledgement is back: its lost copies cost a round trip each.
   */
  lemma QuiescenceInFull(s: Setup, policy: Policy, t: Transfer, done: Seconds)
    requires t.timing.done == Some(done)
    ensures var back := if policy.WholeRetry? then done
                        else done + s.link.controlRetries(t.controls) as real * s.link.rtt + OnTheWire(s.link, AckLen(s)) + s.link.rtt / 2.0;
      Quiescence(s, policy, t) == if back >= t.timing.cursor then back else t.timing.cursor
  {
    SerializationIsWireTime(s.link, AckLen(s));
  }

  /** A report is an acknowledgement, a unit count and a bitmap with a bit for every unit and no spare byte. */
  lemma ReportHasABitPerUnit(s: Setup, bitmap: int)
    requires bitmap == NackLen(s) - AckLen(s) - 4
    ensures bitmap * 8 - 8 < |s.units| <= bitmap * 8
  {
  }

  // ---- Datagrams ----

  /** Attempts of the first `k` units. */
  ghost function AttemptCount(attempts: seq<nat>, k: nat): nat
    requires k <= |attempts|
  {
    if k == 0 then 0 else AttemptCount(attempts, k - 1) + attempts[k - 1]
  }

  ghost function ReportDatagrams(s: Setup, c: nat): nat {
    if c == 0 then 0 else ReportDatagrams(s, c - 1) + Transmissions(s, c - 1)
  }

  lemma {:induction false} OneMoreAttempt(attempts: seq<nat>, i: nat, k: nat)
    requires i < |attempts| && k <= |attempts|
    ensures AttemptCount(attempts[i := attempts[i] + 1], k) == AttemptCount(attempts, k) + if i < k then 1 else 0
  {
    if k > 0 {
      OneMoreAttempt(attempts, i, k - 1);
    }
  }

  /** Datagrams that are neither attempts of units nor reports. */
  ghost function Others(s: Setup, t: Transfer): int
    requires Shaped(s, t)
  {
    t.cost.datagrams - AttemptCount(t.attempts, |s.units|) - ReportDatagrams(s, t.controls)
  }

  lemma {:induction false} FlyKeepsOthers(s: Setup, policy: Policy, round: nat, t: Transfer, k: nat)
    requires Shaped(s, t) && k <= |s.units|
    ensures Others(s, Fly(s, policy, round, t, k)) == Others(s, t)
  {
    if k > 0 {
      FlyKeepsOthers(s, policy, round, t, k - 1);
      var before := Fly(s, policy, round, t, k - 1);
      OneMoreAttempt(before.attempts, k - 1, |s.units|);
    }
  }

  lemma ParityPhaseAddsGroups(s: Setup, t: Transfer)
    requires Books(s, t)
    ensures Others(s, ParityPhase(s, t)) == Others(s, t) + GroupCount(|s.units|)
  {
    var groups := GroupCount(|s.units|);
    var held := HoldParity(s, t, ParityTally(s, t.receiver.received, groups));
    RecoverGroupsCostNothing(s, held, groups);
    RecoverGroupsKeepBooks(s, held, groups);
  }

  lemma AdvanceAddsDatagrams(s: Setup, policy: Policy, round: nat, t: Transfer, r: Transfer)
    requires Books(s, t) && !Complete(t) && r == Advance(s, policy, round, t)
    ensures Others(s, r) == Others(s, t) + if round == 0 && policy.Xor8Plus1? then GroupCount(|s.units|) else 0
  {
    FlyKeepsOthers(s, policy, round, t, |s.units|);
    FlyKeepsBooks(s, policy, round, t, |s.units|);
    var flown := Fly(s, policy, round, t, |s.units|);
    if round == 0 && policy.Xor8Plus1? {
      ParityPhaseAddsGroups(s, flown.(report := flown.report.(initialLoss := MissingUseful(s.units, flown.receiver.received))));
    }
  }

  /** After every round the datagrams are the attempts of all units, one parity per group, and the reports. */
  lemma {:induction false} DatagramsAddUp(s: Setup, policy: Policy, rounds: nat, t: Transfer)
    requires s.units != [] && rounds > 0 && t == After(s, policy, rounds)
    ensures t.cost.datagrams == AttemptCount(t.attempts, |s.units|) + ReportDatagrams(s, t.controls)
         + if policy.Xor8Plus1? then GroupCount(|s.units|) else 0
  {
    var before := After(s, policy, rounds - 1);
    BooksAlwaysBalance(s, policy, rounds - 1);
    if rounds == 1 {
      NothingSentYet(s, |s.units|);
    } else {
      DatagramsAddUp(s, policy, rounds - 1, before);
    }
    if !Complete(before) {
      AdvanceAddsDatagrams(s, policy, rounds - 1, before, t);
    }
  }

  lemma {:induction false} NothingSentYet(s: Setup, k: nat)
    requires k <= |s.units|
    ensures AttemptCount(Start(s).attempts, k) == 0
  {
    if k > 0 {
      NothingSentYet(s, k - 1);
    }
  }
}
