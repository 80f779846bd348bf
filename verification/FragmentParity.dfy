/**
 * Parity recovery against missing-only recovery over one link. Each unit's arrivals have a closed
 * form; parity can only add to it, so the 8+1 policy is never behind, unless its wider wire layout
 * moves a unit into the burst that missing-only keeps clear of it.
 */
module FragmentParity {
  import opened FragmentGeometry
  import opened FragmentRecovery
  import opened FragmentAccounting
  import opened FragmentLockstep

  // ---- Closed form ----

  /** Some attempt of unit `i` among the first `rounds` arrives. */
  ghost predicate Arrives(link: Link, policy: Policy, i: nat, rounds: nat) {
    exists a: nat :: 1 <= a <= rounds && !DataLost(link, policy, i, a)
  }

  /** While a unit is missing, its attempts are the rounds flown, and all of them were lost. */
  ghost predicate Tracked(s: Setup, policy: Policy, t: Transfer, i: nat, rounds: nat)
    requires Shaped(s, t) && i < |s.units|
  {
    && (!t.receiver.received[i] ==> t.attempts[i] == rounds)
    && (Arrives(s.link, policy, i, rounds) ==> t.receiver.received[i])
  }

  lemma ArrivesNext(link: Link, policy: Policy, i: nat, rounds: nat)
    ensures Arrives(link, policy, i, rounds + 1)
       <==> Arrives(link, policy, i, rounds) || !DataLost(link, policy, i, rounds + 1)
  {
    if Arrives(link, policy, i, rounds + 1) && DataLost(link, policy, i, rounds + 1) {
      var a: nat :| 1 <= a <= rounds + 1 && !DataLost(link, policy, i, a);
      assert a <= rounds;
    }
  }

  lemma {:induction false} RecoverGroupsGrow(s: Setup, t: Transfer, k: nat, i: nat)
    requires Shaped(s, t) && k <= GroupCount(|s.units|) && i < |s.units|
    ensures RecoverGroups(s, t, k).attempts == t.attempts
    ensures t.receiver.received[i] ==> RecoverGroups(s, t, k).receiver.received[i]
  {
    if k > 0 {
      RecoverGroupsGrow(s, t, k - 1, i);
    }
  }

  lemma FirstFlightGrows(s: Setup, policy: Policy, t: Transfer, i: nat)
    requires Shaped(s, t) && i < |s.units|
    ensures FirstFlight(s, policy, t).attempts == t.attempts
    ensures t.receiver.received[i] ==> FirstFlight(s, policy, t).receiver.received[i]
    ensures !policy.Xor8Plus1? ==> FirstFlight(s, policy, t).receiver == t.receiver
  {
    if policy.Xor8Plus1? {
      var lost := t.(report := t.report.(initialLoss := MissingUseful(s.units, t.receiver.received)));
      var tally := ParityTally(s, lost.receiver.received, GroupCount(|s.units|));
      RecoverGroupsGrow(s, HoldParity(s, lost, tally), GroupCount(|s.units|), i);
    }
  }

  lemma FlightTracks(s: Setup, policy: Policy, round: nat, t: Transfer, i: nat)
    requires Shaped(s, t) && i < |s.units| && Tracked(s, policy, t, i, round)
    ensures Tracked(s, policy, Flight(s, policy, round, t), i, round + 1)
    ensures !t.receiver.received[i] && (!policy.Xor8Plus1? || round > 0) && Flight(s, policy, round, t).receiver.received[i] ==>
      !DataLost(s.link, policy, i, round + 1)
    ensures t.receiver.received[i] ==> Flight(s, policy, round, t).receiver.received[i]
  {
    ArrivesNext(s.link, policy, i, round);
    FlightCarries(s, policy, round, t, |s.units|, i);
    FirstFlightGrows(s, policy, Fly(s, policy, round, t, |s.units|), i);
  }

  lemma AdvanceTracks(s: Setup, policy: Policy, round: nat, t: Transfer, i: nat)
    requires Shaped(s, t) && i < |s.units| && Tracked(s, policy, t, i, round) && (Complete(t) ==> t.receiver.received[i])
    ensures Tracked(s, policy, Advance(s, policy, round, t), i, round + 1)
  {
    FlightTracks(s, policy, round, t, i);
  }

  lemma CompleteHoldsUnit(s: Setup, policy: Policy, rounds: nat, i: nat)
    requires i < |s.units|
    ensures Complete(After(s, policy, rounds)) ==> After(s, policy, rounds).receiver.received[i]
  {
    CompletionDeliversEverything(s, policy, rounds);
  }

  lemma {:induction false} AfterTracks(s: Setup, policy: Policy, rounds: nat, i: nat)
    requires i < |s.units|
    ensures Tracked(s, policy, After(s, policy, rounds), i, rounds)
  {
    if rounds > 0 {
      AfterTracks(s, policy, rounds - 1, i);
      CompleteHoldsUnit(s, policy, rounds - 1, i);
      AdvanceTracks(s, policy, rounds - 1, After(s, policy, rounds - 1), i);
    }
  }

  lemma AdvanceReceives(s: Setup, policy: Policy, round: nat, t: Transfer, i: nat)
    requires Shaped(s, t) && i < |s.units| && !policy.Xor8Plus1? && Tracked(s, policy, t, i, round)
    requires t.receiver.received[i] ==> Arrives(s.link, policy, i, round)
    ensures Advance(s, policy, round, t).receiver.received[i] ==> Arrives(s.link, policy, i, round + 1)
  {
    ArrivesNext(s.link, policy, i, round);
    FlightTracks(s, policy, round, t, i);
  }

  /** Without parity, a unit is received after `rounds` rounds exactly when one of its attempts arrives. */
  lemma {:induction false} ReceivedIffSomeAttemptArrives(s: Setup, policy: Policy, rounds: nat, i: nat)
    requires i < |s.units| && !policy.Xor8Plus1?
    ensures After(s, policy, rounds).receiver.received[i] <==> Arrives(s.link, policy, i, rounds)
  {
    AfterTracks(s, policy, rounds, i);
    if rounds > 0 {
      ReceivedIffSomeAttemptArrives(s, policy, rounds - 1, i);
      AfterTracks(s, policy, rounds - 1, i);
      AdvanceReceives(s, policy, rounds - 1, After(s, policy, rounds - 1), i);
    }
  }

  // ---- Parity against missing-only ----

  /** Every unit the burst hides in the parity layout is hidden in the plain layout as well. */
  ghost predicate HidesNoMore(s: Setup) {
    forall i: nat :: i < |s.units| && InBurst(s.link, DataOrdinal(i)) ==> InBurst(s.link, i)
  }

  lemma ArrivesWithParityToo(s: Setup, i: nat, rounds: nat)
    requires HidesNoMore(s) && i < |s.units| && Arrives(s.link, MissingOnly, i, rounds)
    ensures Arrives(s.link, Xor8Plus1, i, rounds)
  {
    var a: nat :| 1 <= a <= rounds && !DataLost(s.link, MissingOnly, i, a);
    assert !DataLost(s.link, Xor8Plus1, i, a);
  }

  lemma NeverBehind(s: Setup, rounds: nat, i: nat)
    requires HidesNoMore(s) && i < |s.units| && After(s, MissingOnly, rounds).receiver.received[i]
    ensures After(s, Xor8Plus1, rounds).receiver.received[i]
  {
    ReceivedIffSomeAttemptArrives(s, MissingOnly, rounds, i);
    ArrivesWithParityToo(s, i, rounds);
    AfterTracks(s, Xor8Plus1, rounds, i);
  }

  /** Attempts only ever grow, by one for a selected unit and by none for a received one. */
  lemma AdvanceAttempts(s: Setup, policy: Policy, round: nat, t: Transfer, i: nat)
    requires Shaped(s, t) && i < |s.units| && !policy.WholeRetry?
    ensures Advance(s, policy, round, t).attempts[i]
         == t.attempts[i] + if Complete(t) || t.receiver.received[i] then 0 else 1
  {
    FlightCarries(s, policy, round, t, |s.units|, i);
    FirstFlightGrows(s, policy, Fly(s, policy, round, t, |s.units|), i);
  }

  lemma NoMoreAttemptsNext(s: Setup, round: nat, i: nat, p: Transfer, q: Transfer, x: Transfer, m: Transfer)
    requires Shaped(s, p) && Shaped(s, q) && i < |s.units| && p.attempts[i] <= q.attempts[i]
    requires (q.receiver.received[i] ==> p.receiver.received[i]) && (Complete(q) ==> q.receiver.received[i])
    requires x == Advance(s, Xor8Plus1, round, p) && m == Advance(s, MissingOnly, round, q)
    ensures x.attempts[i] <= m.attempts[i]
  {
    AdvanceAttempts(s, Xor8Plus1, round, p, i);
    AdvanceAttempts(s, MissingOnly, round, q, i);
  }

  lemma NoLessReceived(s: Setup, rounds: nat, i: nat)
    requires HidesNoMore(s) && i < |s.units|
    ensures After(s, MissingOnly, rounds).receiver.received[i] ==> After(s, Xor8Plus1, rounds).receiver.received[i]
    ensures Complete(After(s, MissingOnly, rounds)) ==> After(s, MissingOnly, rounds).receiver.received[i]
  {
    CompleteHoldsUnit(s, MissingOnly, rounds, i);
    if After(s, MissingOnly, rounds).receiver.received[i] {
      NeverBehind(s, rounds, i);
    }
  }

  lemma {:induction false} NoMoreAttempts(s: Setup, rounds: nat, i: nat, x: Transfer, m: Transfer)
    requires HidesNoMore(s) && i < |s.units| && x == After(s, Xor8Plus1, rounds) && m == After(s, MissingOnly, rounds)
    ensures x.attempts[i] <= m.attempts[i]
  {
    if rounds > 0 {
      var p, q := After(s, Xor8Plus1, rounds - 1), After(s, MissingOnly, rounds - 1);
      NoMoreAttempts(s, rounds - 1, i, p, q);
      NoLessReceived(s, rounds - 1, i);
      NoMoreAttemptsNext(s, rounds - 1, i, p, q, x, m);
    }
  }

  // ---- Retransmitted bytes ----

  function Once(s: Setup): seq<nat> {
    seq(|s.units|, i => 1)
  }

  lemma FirstFlightSendsOnce(s: Setup, policy: Policy, t: Transfer)
    requires t == Start(s) && s.units != []
    ensures Advance(s, policy, 0, t).attempts == Once(s)
  {
    forall i | 0 <= i < |s.units|
      ensures Advance(s, policy, 0, t).attempts[i] == 1
    {
      FlightCarries(s, policy, 0, t, |s.units|, i);
      FirstFlightGrows(s, policy, Fly(s, policy, 0, t, |s.units|), i);
    }
  }

  lemma FirstRoundRetransmitsNothing(s: Setup, policy: Policy, t: Transfer)
    requires s.units != [] && t == Start(s)
    ensures Advance(s, policy, 0, t).cost.retransmitted == 0 && Advance(s, policy, 0, t).attempts == Once(s)
  {
    StartKeepsBooks(s);
    AdvanceKeepsBooks(s, policy, 0, t);
    FirstFlightSendsOnce(s, policy, t);
  }

  /** Retransmitted bytes are the data bytes beyond sending every unit once. */
  lemma {:induction false} RetransmissionsAddUp(s: Setup, policy: Policy, rounds: nat)
    requires s.units != [] && rounds > 0
    ensures After(s, policy, rounds).cost.retransmitted
         == DataBytes(s.units, After(s, policy, rounds).attempts, |s.units|) - DataBytes(s.units, Once(s), |s.units|)
  {
    if rounds == 1 {
      FirstRound(s, policy, rounds);
      FirstRoundRetransmitsNothing(s, policy, Start(s));
    } else {
      RetransmissionsAddUp(s, policy, rounds - 1);
      BooksAlwaysBalance(s, policy, rounds - 1);
      AdvanceKeepsBooks(s, policy, rounds - 1, After(s, policy, rounds - 1));
    }
  }

  /**
   * When the burst hides no more, parity recovery holds everything missing-only holds after every
   * round, so it completes no later and retransmits no more bytes.
   */
  lemma ParityIsNeverBehind(s: Setup, rounds: nat)
    requires HidesNoMore(s) && s.units != [] && rounds > 0
    ensures var x, m := After(s, Xor8Plus1, rounds), After(s, MissingOnly, rounds);
      && (forall i :: 0 <= i < |s.units| && m.receiver.received[i] ==> x.receiver.received[i])
      && (Complete(m) ==> Complete(x))
      && x.cost.retransmitted <= m.cost.retransmitted
  {
    var x, m := After(s, Xor8Plus1, rounds), After(s, MissingOnly, rounds);
    forall i | 0 <= i < |s.units|
      ensures m.receiver.received[i] ==> x.receiver.received[i]
      ensures x.attempts[i] <= m.attempts[i]
    {
      if m.receiver.received[i] {
        NeverBehind(s, rounds, i);
      }
      NoMoreAttempts(s, rounds, i, x, m);
    }
    CompletionDeliversEverything(s, MissingOnly, rounds);
    CompletionDeliversEverything(s, Xor8Plus1, rounds);
    FewerAttemptsFewerBytes(s.units, x.attempts, m.attempts, |s.units|);
    RetransmissionsAddUp(s, Xor8Plus1, rounds);
    RetransmissionsAddUp(s, MissingOnly, rounds);
  }

  // ---- Exactness of the condition ----

  /** The same burst over a link that loses all parity and nothing else. */
  function BurstOnly(s: Setup): Setup {
    s.(link := s.link.(data := (unit, attempt) => false, parity := group => true))
  }

  lemma {:induction false} NoParityNoRecovery(s: Setup, t: Transfer, k: nat)
    requires Shaped(s, t) && k <= GroupCount(|s.units|) && forall g: nat :: s.link.parity(g)
    ensures RecoverGroups(s, t, k) == t
  {
    if k > 0 {
      NoParityNoRecovery(s, t, k - 1);
    }
  }

  /**
   * The condition is exact: if the burst hides unit `i` from the parity layout only, there are loss
   * draws under which missing-only has the unit after one round and parity recovery has not.
   */
  lemma HiddenUnitFallsBehind(s: Setup, i: nat, t: Transfer)
    requires i < |s.units| && InBurst(s.link, DataOrdinal(i)) && !InBurst(s.link, i) && t == Start(s)
    ensures Advance(BurstOnly(s), MissingOnly, 0, t).receiver.received[i]
    ensures !Advance(BurstOnly(s), Xor8Plus1, 0, t).receiver.received[i]
  {
    var b, n := BurstOnly(s), |s.units|;
    FlightCarries(b, MissingOnly, 0, t, n, i);
    FirstFlightGrows(b, MissingOnly, Fly(b, MissingOnly, 0, t, n), i);
    FlightCarries(b, Xor8Plus1, 0, t, n, i);
    var x := Fly(b, Xor8Plus1, 0, t, n);
    var lost := x.(report := x.report.(initialLoss := MissingUseful(s.units, x.receiver.received)));
    var tally := ParityTally(b, lost.receiver.received, GroupCount(n));
    NoParityNoRecovery(b, HoldParity(b, lost, tally), GroupCount(n));
  }

  /** A transfer that parity recovery would trail on: same units, same burst, some draws. */
  ghost predicate CanFallBehind(s: Setup) {
    exists data: (nat, nat) -> bool, parity: nat -> bool, rounds: nat, i: nat ::
      i < |s.units| && Trails(s.(link := s.link.(data := data, parity := parity)), rounds, i)
  }

  ghost predicate Trails(s: Setup, rounds: nat, i: nat)
    requires i < |s.units|
  {
    After(s, MissingOnly, rounds).receiver.received[i] && !After(s, Xor8Plus1, rounds).receiver.received[i]
  }

  lemma FirstRound(s: Setup, policy: Policy, rounds: nat)
    requires rounds == 1
    ensures After(s, policy, rounds) == Advance(s, policy, 0, Start(s))
  {
  }

  lemma HiddenUnitTrails(s: Setup, i: nat, rounds: nat)
    requires i < |s.units| && InBurst(s.link, DataOrdinal(i)) && !InBurst(s.link, i) && rounds == 1
    ensures Trails(BurstOnly(s), rounds, i)
  {
    var b := BurstOnly(s);
    HiddenUnitFallsBehind(s, i, Start(b));
    FirstRound(b, MissingOnly, rounds);
    FirstRound(b, Xor8Plus1, rounds);
  }

  /** Parity recovery can trail missing-only under some loss draws iff the burst hides more from it. */
  lemma FallsBehindIffBurstHidesMore(s: Setup)
    ensures CanFallBehind(s) <==> !HidesNoMore(s)
  {
    if !HidesNoMore(s) {
      var i: nat :| i < |s.units| && InBurst(s.link, DataOrdinal(i)) && !InBurst(s.link, i);
      var b, rounds := BurstOnly(s), 1;
      HiddenUnitTrails(s, i, rounds);
      assert b == s.(link := s.link.(data := b.link.data, parity := b.link.parity));
    }
    if CanFallBehind(s) && HidesNoMore(s) {
      var data: (nat, nat) -> bool, parity: nat -> bool, rounds: nat, i: nat :|
        i < |s.units| && Trails(s.(link := s.link.(data := data, parity := parity)), rounds, i);
      var b := s.(link := s.link.(data := data, parity := parity));
      assert HidesNoMore(b);
      NeverBehind(b, rounds, i);
    }
  }
}
