/**
 * What parity recovers: the received set of the 8+1 policy in closed form, after the first flight and
 * after every later round, and the report and the receiver's parity bytes that go with it.
 */
module FragmentRestore {
  import opened Arithmetic
  import opened Options
  import opened FragmentGeometry
  import opened FragmentRecovery
  import opened FragmentAccounting
  import opened FragmentLockstep
  import opened FragmentParity

  // ---- One group ----

  lemma {:induction false} NoneMissing(received: seq<bool>, first: nat, count: nat)
    requires first + count <= |received|
    ensures MissingBetween(received, first, count) == [] <==> forall j :: first <= j < first + count ==> received[j]
  {
    if count > 0 {
      NoneMissing(received, first, count - 1);
    }
  }

  /** Exactly one unit of the range is missing. */
  ghost predicate Alone(received: seq<bool>, first: nat, count: nat, x: nat)
    requires first + count <= |received|
  {
    first <= x < first + count && !received[x] && forall j :: first <= j < first + count && j != x ==> received[j]
  }

  lemma {:induction false} OneMissing(received: seq<bool>, first: nat, count: nat, x: nat)
    requires first + count <= |received|
    ensures MissingBetween(received, first, count) == [x] <==> Alone(received, first, count, x)
  {
    if count > 0 {
      var last, before := first + count - 1, MissingBetween(received, first, count - 1);
      NoneMissing(received, first, count - 1);
      OneMissing(received, first, count - 1, x);
      if received[last] {
        assert Alone(received, first, count, x) <==> Alone(received, first, count - 1, x);
      } else {
        assert (before + [last])[|before|] == last;
        assert before + [last] == [x] ==> |before| == 0;
      }
    }
  }

  function GroupOf(i: nat): nat {
    i / FEC_DATA_PER_GROUP
  }

  lemma GroupRange(units: nat, g: nat, i: nat)
    requires g < GroupCount(units) && i < units
    ensures GroupOf(i) == g <==> g * FEC_DATA_PER_GROUP <= i < g * FEC_DATA_PER_GROUP + GroupSize(units, g)
  {
  }

  lemma InSomeGroup(units: nat, i: nat)
    requires units >= 2 && i < units
    ensures GroupOf(i) < GroupCount(units)
  {
  }

  ghost predicate OthersHeld(received: seq<bool>, i: nat)
    requires i < |received|
  {
    forall j :: 0 <= j < |received| && GroupOf(j) == GroupOf(i) && j != i ==> received[j]
  }

  /** Parity can give unit `i` back: its group's parity arrived and every other unit of the group is there. */
  ghost predicate Restorable(s: Setup, received: seq<bool>, i: nat)
    requires |received| == |s.units| && i < |s.units|
  {
    && GroupOf(i) < GroupCount(|s.units|) && !ParityLost(s, GroupOf(i))
    && !received[i] && OthersHeld(received, i)
  }

  lemma AloneInGroup(received: seq<bool>, g: nat, x: nat)
    requires g < GroupCount(|received|) && x < |received|
    ensures Alone(received, g * FEC_DATA_PER_GROUP, GroupSize(|received|, g), x)
       <==> GroupOf(x) == g && !received[x] && OthersHeld(received, x)
  {
    forall j | 0 <= j < |received|
      ensures GroupOf(j) == g <==> g * FEC_DATA_PER_GROUP <= j < g * FEC_DATA_PER_GROUP + GroupSize(|received|, g)
    {
      GroupRange(|received|, g, j);
    }
  }

  /** A group gets back exactly its restorable unit. */
  lemma LoneIsRestorable(s: Setup, received: seq<bool>, g: nat, x: nat)
    requires |received| == |s.units| && g < GroupCount(|s.units|) && x < |s.units|
    ensures Lone(s, received, g) == Some(x) <==> GroupOf(x) == g && Restorable(s, received, x)
  {
    OneMissing(received, g * FEC_DATA_PER_GROUP, GroupSize(|s.units|, g), x);
    AloneInGroup(received, g, x);
    var missing := MissingIn(|s.units|, received, g);
    assert |missing| == 1 ==> missing == [missing[0]];
  }

  // ---- All groups ----

  /** What is held once the first `k` groups have used their parity. */
  ghost predicate Regained(s: Setup, received: seq<bool>, k: nat, i: nat)
    requires |received| == |s.units| && i < |s.units|
  {
    received[i] || (GroupOf(i) < k && Restorable(s, received, i))
  }

  /** Units of a group that no parity was used for yet are as they were. */
  lemma SameGroupSameRestorable(s: Setup, a: seq<bool>, b: seq<bool>, g: nat, x: nat)
    requires |a| == |b| == |s.units| && x < |s.units| && GroupOf(x) == g
    requires forall j :: 0 <= j < |s.units| && GroupOf(j) == g ==> a[j] == b[j]
    ensures Restorable(s, a, x) <==> Restorable(s, b, x)
  {
  }

  lemma RestoreRegains(s: Setup, t: Transfer, before: Transfer, k: nat, arrival: Seconds, i: nat)
    requires Shaped(s, t) && Shaped(s, before) && k < GroupCount(|s.units|) && i < |s.units|
    requires forall j :: 0 <= j < |s.units| ==> (before.receiver.received[j] <==> Regained(s, t.receiver.received, k, j))
    ensures Restore(s, before, Lone(s, before.receiver.received, k), arrival).receiver.received[i]
       <==> Regained(s, t.receiver.received, k + 1, i)
  {
    var was, now := t.receiver.received, before.receiver.received;
    LoneIsRestorable(s, now, k, i);
    if GroupOf(i) == k {
      SameGroupSameRestorable(s, now, was, k, i);
    }
  }

  lemma {:induction false} RecoverGroupsRegain(s: Setup, t: Transfer, k: nat)
    requires Shaped(s, t) && k <= GroupCount(|s.units|)
    ensures forall i :: 0 <= i < |s.units| ==>
      (RecoverGroups(s, t, k).receiver.received[i] <==> Regained(s, t.receiver.received, k, i))
  {
    if k > 0 {
      RecoverGroupsRegain(s, t, k - 1);
      var before := RecoverGroups(s, t, k - 1);
      forall i | 0 <= i < |s.units|
        ensures RecoverGroups(s, t, k).receiver.received[i] <==> Regained(s, t.receiver.received, k, i)
      {
        RestoreRegains(s, t, before, k - 1, ParityCursor(s, t.timing.cursor, k) + OneWay(s.link), i);
      }
    }
  }

  // ---- The first flight ----

  /** The first attempt of unit `i` arrives. */
  ghost predicate Delivered(s: Setup, policy: Policy, i: nat) {
    !DataLost(s.link, policy, i, 1)
  }

  /** The first attempt of `i` is lost, but its group's parity and all its neighbours' first attempts arrive. */
  ghost predicate RestoredByParity(s: Setup, i: nat)
    requires i < |s.units|
  {
    && |s.units| >= 2 && !Delivered(s, Xor8Plus1, i) && !ParityLost(s, GroupOf(i))
    && forall j :: 0 <= j < |s.units| && GroupOf(j) == GroupOf(i) && j != i ==> Delivered(s, Xor8Plus1, j)
  }

  lemma FirstFlightDelivers(s: Setup, policy: Policy, t: Transfer, i: nat)
    requires i < |s.units| && t == Fly(s, policy, 0, Start(s), |s.units|)
    ensures t.receiver.received[i] <==> Delivered(s, policy, i)
  {
    FlightCarries(s, policy, 0, Start(s), |s.units|, i);
  }

  lemma RestorableIsRestored(s: Setup, t: Transfer, i: nat)
    requires i < |s.units| && t == Fly(s, Xor8Plus1, 0, Start(s), |s.units|)
    ensures Restorable(s, t.receiver.received, i) <==> RestoredByParity(s, i)
  {
    forall j | 0 <= j < |s.units|
      ensures t.receiver.received[j] <==> Delivered(s, Xor8Plus1, j)
    {
      FirstFlightDelivers(s, Xor8Plus1, t, j);
    }
    if |s.units| >= 2 {
      InSomeGroup(|s.units|, i);
    }
  }

  /** The parity phase gives back exactly the restorable units. */
  lemma ParityPhaseRegains(s: Setup, t: Transfer, i: nat)
    requires Books(s, t) && i < |s.units|
    ensures ParityPhase(s, t).receiver.received[i] <==> t.receiver.received[i] || Restorable(s, t.receiver.received, i)
  {
    var groups := GroupCount(|s.units|);
    var held := HoldParity(s, t, ParityTally(s, t.receiver.received, groups));
    RecoverGroupsRegain(s, held, groups);
    NothingMissing(s.units, t.receiver.received, |s.units|);
  }

  lemma FlownBooks(s: Setup, policy: Policy)
    ensures Books(s, Fly(s, policy, 0, Start(s), |s.units|))
  {
    StartKeepsBooks(s);
    FlyKeepsBooks(s, policy, 0, Start(s), |s.units|);
  }

  /** After the first round of the 8+1 policy a unit is held iff it was delivered or parity restored it. */
  lemma HeldAfterFirstFlight(s: Setup, i: nat, t: Transfer)
    requires i < |s.units| && t == Advance(s, Xor8Plus1, 0, Start(s))
    ensures t.receiver.received[i] <==> Delivered(s, Xor8Plus1, i) || RestoredByParity(s, i)
  {
    var flown := Fly(s, Xor8Plus1, 0, Start(s), |s.units|);
    var lost := flown.(report := flown.report.(initialLoss := MissingUseful(s.units, flown.receiver.received)));
    FlownBooks(s, Xor8Plus1);
    ParityPhaseRegains(s, lost, i);
    FirstFlightDelivers(s, Xor8Plus1, flown, i);
    RestorableIsRestored(s, flown, i);
  }

  /**
   * The received set in closed form: after `rounds` rounds of the 8+1 policy a unit is held iff one of that
   * many attempts arrived, or parity restored it after the first.
   */
  lemma {:induction false} ReceivedIffArrivesOrRestored(s: Setup, rounds: nat, i: nat)
    requires i < |s.units| && rounds > 0
    ensures After(s, Xor8Plus1, rounds).receiver.received[i]
       <==> Arrives(s.link, Xor8Plus1, i, rounds) || RestoredByParity(s, i)
  {
    AfterTracks(s, Xor8Plus1, rounds, i);
    if rounds == 1 {
      FirstRound(s, Xor8Plus1, rounds);
      HeldAfterFirstFlight(s, i, After(s, Xor8Plus1, rounds));
      ArrivesOnce(s.link, i);
    } else {
      ReceivedIffArrivesOrRestored(s, rounds - 1, i);
      AfterTracks(s, Xor8Plus1, rounds - 1, i);
      LaterRoundReceives(s, rounds - 1, After(s, Xor8Plus1, rounds - 1), i);
      ArrivesNext(s.link, Xor8Plus1, i, rounds - 1);
    }
  }

  lemma ArrivesOnce(link: Link, i: nat)
    ensures Arrives(link, Xor8Plus1, i, 1) <==> !DataLost(link, Xor8Plus1, i, 1)
  {
    ArrivesNext(link, Xor8Plus1, i, 0);
  }

  lemma LaterRoundReceives(s: Setup, round: nat, t: Transfer, i: nat)
    requires Shaped(s, t) && i < |s.units| && round > 0 && Tracked(s, Xor8Plus1, t, i, round)
    ensures Advance(s, Xor8Plus1, round, t).receiver.received[i] ==>
      t.receiver.received[i] || !DataLost(s.link, Xor8Plus1, i, round + 1)
    ensures t.receiver.received[i] ==> Advance(s, Xor8Plus1, round, t).receiver.received[i]
  {
    FlightTracks(s, Xor8Plus1, round, t, i);
  }

  // ---- The report ----

  /** Useful bytes of the first `k` units whose first attempt is lost. */
  ghost function LostUseful(s: Setup, policy: Policy, k: nat): nat
    requires k <= |s.units|
  {
    if k == 0 then 0 else LostUseful(s, policy, k - 1) + if Delivered(s, policy, k - 1) then 0 else s.units[k - 1].usefulLen
  }

  /** How many of the first `k` units parity restores. */
  ghost function RestoredCount(s: Setup, k: nat): nat
    requires k <= |s.units|
  {
    if k == 0 then 0 else RestoredCount(s, k - 1) + if RestoredByParity(s, k - 1) then 1 else 0
  }

  /** ... and their useful bytes. */
  ghost function RestoredUseful(s: Setup, k: nat): nat
    requires k <= |s.units|
  {
    if k == 0 then 0 else RestoredUseful(s, k - 1) + if RestoredByParity(s, k - 1) then s.units[k - 1].usefulLen else 0
  }

  lemma {:induction false} MissingIsLost(s: Setup, policy: Policy, t: Transfer, k: nat)
    requires k <= |s.units| && t == Fly(s, policy, 0, Start(s), |s.units|)
    ensures MissingUsefulUpTo(s.units, t.receiver.received, k) == LostUseful(s, policy, k)
  {
    if k > 0 {
      MissingIsLost(s, policy, t, k - 1);
      FirstFlightDelivers(s, policy, t, k - 1);
    }
  }

  lemma {:induction false} MissingDrops(s: Setup, a: seq<bool>, b: seq<bool>, k: nat)
    requires |a| == |b| == |s.units| && k <= |s.units|
    requires forall i :: 0 <= i < |s.units| ==> (b[i] <==> a[i] || RestoredByParity(s, i)) && (RestoredByParity(s, i) ==> !a[i])
    ensures MissingCount(a, k) == MissingCount(b, k) + RestoredCount(s, k)
    ensures MissingUsefulUpTo(s.units, a, k) == MissingUsefulUpTo(s.units, b, k) + RestoredUseful(s, k)
  {
    if k > 0 {
      MissingDrops(s, a, b, k - 1);
    }
  }

  /** Every unit parity gives back is one less remaining. */
  lemma {:induction false} RecoveredPlusRemaining(s: Setup, t: Transfer, k: nat)
    requires Shaped(s, t) && k <= GroupCount(|s.units|)
    ensures RecoverGroups(s, t, k).report.recoveredUnits + RecoverGroups(s, t, k).receiver.remaining
         == t.report.recoveredUnits + t.receiver.remaining
  {
    if k > 0 {
      RecoveredPlusRemaining(s, t, k - 1);
    }
  }

  lemma ParityPhaseReport(s: Setup, t: Transfer)
    requires Shaped(s, t)
    ensures ParityPhase(s, t).report.recoveredUnits + ParityPhase(s, t).receiver.remaining
         == t.report.recoveredUnits + t.receiver.remaining
  {
    var groups := GroupCount(|s.units|);
    RecoveredPlusRemaining(s, HoldParity(s, t, ParityTally(s, t.receiver.received, groups)), groups);
  }

  /** What the first flight reports: the bytes its losses cost, and exactly the units parity restored. */
  lemma FirstFlightReports(s: Setup, policy: Policy, t: Transfer, flown: Transfer)
    requires s.units != [] && t == Advance(s, policy, 0, Start(s)) && flown == Fly(s, policy, 0, Start(s), |s.units|)
    ensures t.report.initialLoss == LostUseful(s, policy, |s.units|)
    ensures t.report.recoveredUnits == if policy.Xor8Plus1? then RestoredCount(s, |s.units|) else 0
  {
    MissingIsLost(s, policy, flown, |s.units|);
    FlyKeepsReport(s, policy, 0, Start(s), |s.units|);
    if policy.Xor8Plus1? {
      var lost := flown.(report := flown.report.(initialLoss := MissingUseful(s.units, flown.receiver.received)));
      ParityPhaseReport(s, lost);
      ParityPhaseKeepsLoss(s, lost);
      RestoredAreCounted(s, t, flown);
    }
  }

  lemma {:induction false} RecoverGroupsKeepLoss(s: Setup, t: Transfer, k: nat)
    requires Shaped(s, t) && k <= GroupCount(|s.units|)
    ensures RecoverGroups(s, t, k).report.initialLoss == t.report.initialLoss
  {
    if k > 0 {
      RecoverGroupsKeepLoss(s, t, k - 1);
    }
  }

  lemma ParityPhaseKeepsLoss(s: Setup, t: Transfer)
    requires Shaped(s, t)
    ensures ParityPhase(s, t).report.initialLoss == t.report.initialLoss
  {
    var groups := GroupCount(|s.units|);
    RecoverGroupsKeepLoss(s, HoldParity(s, t, ParityTally(s, t.receiver.received, groups)), groups);
  }

  lemma RestoredAreCounted(s: Setup, t: Transfer, flown: Transfer)
    requires s.units != [] && t == Advance(s, Xor8Plus1, 0, Start(s)) && flown == Fly(s, Xor8Plus1, 0, Start(s), |s.units|)
    ensures flown.receiver.remaining == t.receiver.remaining + RestoredCount(s, |s.units|)
  {
    FlownBooks(s, Xor8Plus1);
    StartKeepsBooks(s);
    AdvanceKeepsBooks(s, Xor8Plus1, 0, Start(s));
    forall i | 0 <= i < |s.units|
      ensures t.receiver.received[i] <==> flown.receiver.received[i] || RestoredByParity(s, i)
      ensures RestoredByParity(s, i) ==> !flown.receiver.received[i]
    {
      HeldAfterFirstFlight(s, i, t);
      FirstFlightDelivers(s, Xor8Plus1, flown, i);
    }
    MissingDrops(s, flown.receiver.received, t.receiver.received, |s.units|);
  }

  lemma {:induction false} ReportStands(s: Setup, policy: Policy, rounds: nat)
    requires rounds > 0
    ensures After(s, policy, rounds).report == Advance(s, policy, 0, Start(s)).report
  {
    if rounds == 1 {
      FirstRound(s, policy, rounds);
    } else {
      ReportStands(s, policy, rounds - 1);
      LaterRoundKeepsReport(s, policy, rounds - 1, After(s, policy, rounds - 1));
    }
  }

  lemma LaterRoundKeepsReport(s: Setup, policy: Policy, round: nat, t: Transfer)
    requires Shaped(s, t) && round > 0
    ensures Advance(s, policy, round, t).report == t.report
  {
    FlyKeepsReport(s, policy, round, t, |s.units|);
  }

  /**
   * The report after any number of rounds: the bytes the first flight lost, the units parity restored, and
   * what was still missing, which is the one less the other.
   */
  lemma ReportIsExact(s: Setup, policy: Policy, rounds: nat)
    requires s.units != [] && rounds > 0
    ensures var report := After(s, policy, rounds).report;
      && report.initialLoss == LostUseful(s, policy, |s.units|)
      && report.recoveredUnits == (if policy.Xor8Plus1? then RestoredCount(s, |s.units|) else 0)
      && report.recoveredUseful + report.stillMissing == report.initialLoss
      && report.recoveredUseful == (if policy.Xor8Plus1? then RestoredUseful(s, |s.units|) else 0)
  {
    ReportStands(s, policy, rounds);
    var t, flown := Advance(s, policy, 0, Start(s)), Fly(s, policy, 0, Start(s), |s.units|);
    FirstFlightReports(s, policy, t, flown);
    StartKeepsBooks(s);
    AdvanceKeepsBooks(s, policy, 0, Start(s));
    StillMissingIsMissing(s, policy, t, flown);
    MissingIsLost(s, policy, flown, |s.units|);
  }

  lemma StillMissingIsMissing(s: Setup, policy: Policy, t: Transfer, flown: Transfer)
    requires s.units != [] && t == Advance(s, policy, 0, Start(s)) && flown == Fly(s, policy, 0, Start(s), |s.units|)
    ensures MissingUseful(s.units, flown.receiver.received)
         == t.report.stillMissing + if policy.Xor8Plus1? then RestoredUseful(s, |s.units|) else 0
  {
    if policy.Xor8Plus1? {
      forall i | 0 <= i < |s.units|
        ensures t.receiver.received[i] <==> flown.receiver.received[i] || RestoredByParity(s, i)
        ensures RestoredByParity(s, i) ==> !flown.receiver.received[i]
      {
        HeldAfterFirstFlight(s, i, t);
        FirstFlightDelivers(s, Xor8Plus1, flown, i);
      }
      MissingDrops(s, flown.receiver.received, t.receiver.received, |s.units|);
    }
  }

  // ---- Attempts ----

  /** All attempts before the last one were lost, and a unit that was not sent in the last round got through or was restored. */
  ghost predicate AttemptsOk(s: Setup, policy: Policy, a: nat, rounds: nat, i: nat)
    requires i < |s.units|
  {
    && 1 <= a <= rounds && (forall b :: 1 <= b < a ==> DataLost(s.link, policy, i, b))
    && (a < rounds ==> !DataLost(s.link, policy, i, a) || (policy.Xor8Plus1? && a == 1 && RestoredByParity(s, i)))
  }

  lemma MissingLostAll(s: Setup, policy: Policy, rounds: nat, i: nat)
    requires i < |s.units| && rounds > 0
    ensures !After(s, policy, rounds).receiver.received[i] ==> forall b :: 1 <= b <= rounds ==> DataLost(s.link, policy, i, b)
    ensures After(s, policy, rounds).receiver.received[i] ==>
      Arrives(s.link, policy, i, rounds) || (policy.Xor8Plus1? && RestoredByParity(s, i))
  {
    if policy.Xor8Plus1? {
      ReceivedIffArrivesOrRestored(s, rounds, i);
    } else {
      ReceivedIffSomeAttemptArrives(s, policy, rounds, i);
    }
  }

  lemma AttemptsNext(s: Setup, policy: Policy, rounds: nat, i: nat, a: nat, received: bool)
    requires i < |s.units| && rounds > 0 && AttemptsOk(s, policy, a, rounds, i)
    requires !received ==> a == rounds && forall b :: 1 <= b <= rounds ==> DataLost(s.link, policy, i, b)
    requires received ==> Arrives(s.link, policy, i, rounds) || (policy.Xor8Plus1? && RestoredByParity(s, i))
    requires received && policy.Xor8Plus1? && RestoredByParity(s, i) ==> a == 1
    ensures AttemptsOk(s, policy, if received then a else a + 1, rounds + 1, i)
  {
    if received && Arrives(s.link, policy, i, rounds) {
      var b: nat :| 1 <= b <= rounds && !DataLost(s.link, policy, i, b);
    }
  }

  lemma {:induction false} RestoredIsSentOnce(s: Setup, rounds: nat, i: nat)
    requires i < |s.units| && rounds > 0 && RestoredByParity(s, i)
    ensures After(s, Xor8Plus1, rounds).attempts[i] == 1
  {
    if rounds == 1 {
      FirstRound(s, Xor8Plus1, rounds);
      FirstFlightSendsOnce(s, Xor8Plus1, Start(s));
    } else {
      RestoredIsSentOnce(s, rounds - 1, i);
      ReceivedIffArrivesOrRestored(s, rounds - 1, i);
      AdvanceAttempts(s, Xor8Plus1, rounds - 1, After(s, Xor8Plus1, rounds - 1), i);
    }
  }

  lemma SelectiveAttemptsNext(s: Setup, policy: Policy, rounds: nat, i: nat, t: Transfer)
    requires i < |s.units| && rounds > 0 && !policy.WholeRetry? && t == After(s, policy, rounds) && !Complete(t)
    requires AttemptsOk(s, policy, t.attempts[i], rounds, i)
    ensures AttemptsOk(s, policy, Advance(s, policy, rounds, t).attempts[i], rounds + 1, i)
  {
    AdvanceAttempts(s, policy, rounds, t, i);
    AfterTracks(s, policy, rounds, i);
    MissingLostAll(s, policy, rounds, i);
    if policy.Xor8Plus1? && RestoredByParity(s, i) {
      RestoredIsSentOnce(s, rounds, i);
    }
    AttemptsNext(s, policy, rounds, i, t.attempts[i], t.receiver.received[i]);
  }

  ghost predicate AttemptsAre(s: Setup, policy: Policy, a: nat, rounds: nat, i: nat)
    requires i < |s.units|
  {
    if policy.WholeRetry? then a == rounds else AttemptsOk(s, policy, a, rounds, i)
  }

  lemma FirstAttempts(s: Setup, policy: Policy, i: nat)
    requires i < |s.units|
    ensures AttemptsAre(s, policy, Advance(s, policy, 0, Start(s)).attempts[i], 1, i)
  {
    FirstFlightSendsOnce(s, policy, Start(s));
  }

  lemma AttemptsAreNext(s: Setup, policy: Policy, rounds: nat, i: nat, t: Transfer)
    requires i < |s.units| && rounds > 0 && t == After(s, policy, rounds) && !Complete(t)
    requires AttemptsAre(s, policy, t.attempts[i], rounds, i)
    ensures AttemptsAre(s, policy, Advance(s, policy, rounds, t).attempts[i], rounds + 1, i)
  {
    if policy.WholeRetry? {
      WholeRoundSendsAll(s, rounds, t, i);
    } else {
      SelectiveAttemptsNext(s, policy, rounds, i, t);
    }
  }

  /**
   * The attempts in closed form, while flights go on: a selective policy sends a unit until it gets through,
   * and never again; whole retry sends every unit in every round.
   */
  lemma {:induction false} AttemptsAreExact(s: Setup, policy: Policy, rounds: nat, i: nat, before: Transfer, t: Transfer)
    requires i < |s.units| && before == After(s, policy, rounds) && t == After(s, policy, rounds + 1) && !Complete(before)
    ensures AttemptsAre(s, policy, t.attempts[i], rounds + 1, i)
  {
    if rounds == 0 {
      FirstRound(s, policy, 1);
      FirstAttempts(s, policy, i);
    } else {
      StillGoing(s, policy, rounds - 1);
      AttemptsAreExact(s, policy, rounds - 1, i, After(s, policy, rounds - 1), before);
      AttemptsAreNext(s, policy, rounds, i, before);
    }
  }

  /** A transfer that is not complete was not complete before. */
  lemma StillGoing(s: Setup, policy: Policy, rounds: nat)
    requires !Complete(After(s, policy, rounds + 1))
    ensures !Complete(After(s, policy, rounds))
  {
  }

  lemma WholeRoundSendsAll(s: Setup, round: nat, t: Transfer, i: nat)
    requires Shaped(s, t) && i < |s.units| && round > 0 && !Complete(t)
    ensures Advance(s, WholeRetry, round, t).attempts[i] == t.attempts[i] + 1
  {
    FlightCarries(s, WholeRetry, round, t, |s.units|, i);
  }

  // ---- The burst ----

  /** A link that loses nothing but what its burst covers. */
  ghost predicate OnlyTheBurst(link: Link) {
    (forall u, a :: !link.data(u, a)) && forall g :: !link.parity(g)
  }

  /**
   * A burst hides exactly the datagrams at the wire positions it covers, data or parity, and only in the
   * first flight.
   */
  lemma BurstHidesWirePositions(s: Setup, b: Burst, position: nat)
    requires |s.units| >= 2 && OnlyTheBurst(s.link) && s.link.burst == Some(b)
    requires position < |s.units| + GroupCount(|s.units|)
    ensures match At(|s.units|, position)
      case Data(u) =>
        (DataLost(s.link, Xor8Plus1, u, 1) <==> b.start <= position < b.start + b.count)
        && forall a :: a > 1 ==> !DataLost(s.link, Xor8Plus1, u, a)
      case Parity(g) =>
        g < GroupCount(|s.units|) && (ParityLost(s, g) <==> b.start <= position < b.start + b.count)
  {
  }

  /** Without parity the wire positions are the units themselves. */
  lemma BurstHidesUnits(s: Setup, b: Burst, policy: Policy, u: nat)
    requires OnlyTheBurst(s.link) && s.link.burst == Some(b) && !policy.Xor8Plus1?
    ensures DataLost(s.link, policy, u, 1) <==> b.start <= u < b.start + b.count
    ensures forall a :: a > 1 ==> !DataLost(s.link, policy, u, a)
  {
  }
}
