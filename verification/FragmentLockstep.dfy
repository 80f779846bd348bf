/**
 * Two runs of the recovery simulator over one link: whole retry and missing-only recovery progress in
 * lockstep.
 */
module FragmentLockstep {
  import opened FragmentGeometry
  import opened FragmentRecovery
  import opened FragmentAccounting

  // ---- What one flight does ----

  /** Unit `i` before and after a flight that did or did not carry it. */
  ghost predicate FlightEffect(s: Setup, policy: Policy, t: Transfer, r: Transfer, i: nat, sent: bool)
    requires Shaped(s, t) && Shaped(s, r) && i < |s.units|
  {
    && r.attempts[i] == t.attempts[i] + (if sent then 1 else 0)
    && r.receiver.received[i]
       == (t.receiver.received[i] || (sent && !DataLost(s.link, policy, i, t.attempts[i] + 1)))
  }

  /** Sending unit `j` next touches no other unit, and adds its own attempt. */
  lemma EffectNext(s: Setup, policy: Policy, round: nat, t: Transfer, r: Transfer, i: nat, j: nat, sent: bool)
    requires Shaped(s, t) && Shaped(s, r) && i < |s.units| && j < |s.units|
    requires FlightEffect(s, policy, t, r, i, sent) && (i == j ==> !sent)
    ensures FlightEffect(s, policy, t, Send(s, policy, round, r, j), i, sent || i == j)
  {
  }

  /** A flight carries each unit the policy selects exactly once, and leaves the others alone. */
  lemma {:induction false} FlightCarries(s: Setup, policy: Policy, round: nat, t: Transfer, k: nat, i: nat)
    requires Shaped(s, t) && k <= |s.units| && i < |s.units|
    ensures FlightEffect(s, policy, t, Fly(s, policy, round, t, k), i, i < k && Carries(policy, t.receiver.received, i))
  {
    if k > 0 {
      FlightCarries(s, policy, round, t, k - 1, i);
      var sent := i < k - 1 && Carries(policy, t.receiver.received, i);
      EffectNext(s, policy, round, t, Fly(s, policy, round, t, k - 1), i, k - 1, sent);
    }
  }

  // ---- Whole retry and missing-only ----

  ghost predicate SameAttempt(whole: seq<nat>, missing: seq<nat>, received: seq<bool>, i: nat)
    requires i < |whole| == |missing| == |received|
  {
    missing[i] <= whole[i] && (!received[i] ==> missing[i] == whole[i])
  }

  /** Same receiver, same report, and the same attempt number wherever a unit is still missing. */
  ghost predicate Lockstep(s: Setup, w: Transfer, m: Transfer) {
    && Shaped(s, w) && Shaped(s, m) && w.receiver == m.receiver && w.report == m.report
    && forall i :: 0 <= i < |s.units| ==> SameAttempt(w.attempts, m.attempts, m.receiver.received, i)
  }

  lemma SendSame(s: Setup, round: nat, w: Transfer, m: Transfer, i: nat)
    requires Shaped(s, w) && Shaped(s, m) && w.receiver == m.receiver
    requires i < |s.units| && (!m.receiver.received[i] ==> w.attempts[i] == m.attempts[i])
    ensures Send(s, WholeRetry, round, w, i).receiver == Send(s, MissingOnly, round, m, i).receiver
    ensures m.receiver.received[i] ==> Send(s, WholeRetry, round, w, i).receiver == m.receiver
  {
  }

  /** The next unit of both flights: whole retry sends it, missing-only sends it if it was missing. */
  lemma FlightsNextUnit(s: Setup, round: nat, w: Transfer, m: Transfer, k: nat, fw: Transfer, fm: Transfer)
    requires Lockstep(s, w, m) && k < |s.units|
    requires fw == Fly(s, WholeRetry, round, w, k) && fm == Fly(s, MissingOnly, round, m, k) && fw.receiver == fm.receiver
    ensures Send(s, WholeRetry, round, fw, k).receiver
         == if m.receiver.received[k] then fm.receiver else Send(s, MissingOnly, round, fm, k).receiver
  {
    FlightCarries(s, WholeRetry, round, w, k, k);
    FlightCarries(s, MissingOnly, round, m, k, k);
    assert SameAttempt(w.attempts, m.attempts, m.receiver.received, k);
    SendSame(s, round, fw, fm, k);
  }

  lemma {:induction false} FlightsKeepReceiver(s: Setup, round: nat, w: Transfer, m: Transfer, k: nat)
    requires Lockstep(s, w, m) && k <= |s.units|
    ensures Fly(s, WholeRetry, round, w, k).receiver == Fly(s, MissingOnly, round, m, k).receiver
  {
    if k > 0 {
      FlightsKeepReceiver(s, round, w, m, k - 1);
      FlightsNextUnit(s, round, w, m, k - 1, Fly(s, WholeRetry, round, w, k - 1), Fly(s, MissingOnly, round, m, k - 1));
    }
  }

  lemma FlightsKeepAttempts(s: Setup, round: nat, w: Transfer, m: Transfer, i: nat)
    requires Lockstep(s, w, m) && i < |s.units|
    ensures var fw, fm := Fly(s, WholeRetry, round, w, |s.units|), Fly(s, MissingOnly, round, m, |s.units|);
      SameAttempt(fw.attempts, fm.attempts, fm.receiver.received, i)
  {
    assert SameAttempt(w.attempts, m.attempts, m.receiver.received, i);
    FlightCarries(s, WholeRetry, round, w, |s.units|, i);
    FlightCarries(s, MissingOnly, round, m, |s.units|, i);
  }

  lemma FlightsKeepLockstep(s: Setup, round: nat, w: Transfer, m: Transfer)
    requires Lockstep(s, w, m)
    ensures Lockstep(s, Fly(s, WholeRetry, round, w, |s.units|), Fly(s, MissingOnly, round, m, |s.units|))
  {
    FlightsKeepReceiver(s, round, w, m, |s.units|);
    FlyKeepsReport(s, WholeRetry, round, w, |s.units|);
    FlyKeepsReport(s, MissingOnly, round, m, |s.units|);
    var fw, fm := Fly(s, WholeRetry, round, w, |s.units|), Fly(s, MissingOnly, round, m, |s.units|);
    forall i | 0 <= i < |s.units|
      ensures SameAttempt(fw.attempts, fm.attempts, fm.receiver.received, i)
    {
      FlightsKeepAttempts(s, round, w, m, i);
    }
  }

  /** The first flight's report and the control exchange leave the receiver and the attempts alone. */
  lemma AdvanceKeepsLockstep(s: Setup, round: nat, w: Transfer, m: Transfer)
    requires Lockstep(s, w, m)
    ensures Lockstep(s, Advance(s, WholeRetry, round, w), Advance(s, MissingOnly, round, m))
  {
    FlightsKeepLockstep(s, round, w, m);
  }

  /**
   * Under one link, whole retry and missing-only have the same received set, remaining count and
   * peak receiver state after every round.
   */
  lemma {:induction false} WholeAndMissingInLockstep(s: Setup, rounds: nat)
    ensures Lockstep(s, After(s, WholeRetry, rounds), After(s, MissingOnly, rounds))
  {
    if rounds > 0 {
      WholeAndMissingInLockstep(s, rounds - 1);
      AdvanceKeepsLockstep(s, rounds - 1, After(s, WholeRetry, rounds - 1), After(s, MissingOnly, rounds - 1));
    }
  }

  lemma {:induction false} FewerAttemptsFewerBytes(units: seq<DataUnit>, a: seq<nat>, b: seq<nat>, k: nat)
    requires k <= |units| == |a| == |b|
    requires forall i :: 0 <= i < k ==> a[i] <= b[i]
    ensures DataBytes(units, a, k) <= DataBytes(units, b, k)
  {
    if k > 0 {
      FewerAttemptsFewerBytes(units, a, b, k - 1);
      var gap: nat := b[k - 1] - a[k - 1];
      assert units[k - 1].wireLen * b[k - 1] == units[k - 1].wireLen * a[k - 1] + units[k - 1].wireLen * gap;
    }
  }

  lemma LockstepSendsNoMore(s: Setup, w: Transfer, m: Transfer)
    requires Lockstep(s, w, m)
    ensures DataBytes(s.units, m.attempts, |s.units|) <= DataBytes(s.units, w.attempts, |s.units|)
  {
    forall i | 0 <= i < |s.units|
      ensures m.attempts[i] <= w.attempts[i]
    {
      assert SameAttempt(w.attempts, m.attempts, m.receiver.received, i);
    }
    FewerAttemptsFewerBytes(s.units, m.attempts, w.attempts, |s.units|);
  }

  /** The transfer completes in flight `rounds`, counted from zero. */
  ghost predicate CompletesIn(s: Setup, policy: Policy, rounds: nat) {
    !Complete(After(s, policy, rounds)) && Complete(After(s, policy, rounds + 1))
  }

  /** So they need the same number of rounds and the same peak, and missing-only sends no more data. */
  lemma MissingOnlyIsAsQuickAndCheaper(s: Setup, rounds: nat)
    ensures CompletesIn(s, WholeRetry, rounds) <==> CompletesIn(s, MissingOnly, rounds)
    ensures After(s, WholeRetry, rounds).receiver == After(s, MissingOnly, rounds).receiver
    ensures DataBytes(s.units, After(s, MissingOnly, rounds).attempts, |s.units|)
         <= DataBytes(s.units, After(s, WholeRetry, rounds).attempts, |s.units|)
  {
    WholeAndMissingInLockstep(s, rounds);
    WholeAndMissingInLockstep(s, rounds + 1);
    LockstepSendsNoMore(s, After(s, WholeRetry, rounds), After(s, MissingOnly, rounds));
  }
}
