/**
 * The receiver's peak state: what it retains while the payload is incomplete, and the parity it has to
 * hold on to, which is that of the groups parity could not complete.
 */
module FragmentPeak {
  import opened Arithmetic
  import opened Options
  import opened FragmentGeometry
  import opened FragmentRecovery
  import opened FragmentAccounting
  import opened FragmentParity
  import opened FragmentRestore

  // ---- Without parity ----

  /** While incomplete the peak is what is retained; a complete payload peaked just before its last unit. */
  ghost predicate PeakOk(units: seq<DataUnit>, rx: Receiver) {
    if rx.remaining > 0 then rx.peak == rx.retained
    else exists i :: 0 <= i < |units| && rx.peak + units[i].usefulLen == rx.retained
  }

  lemma SendKeepsPeak(s: Setup, policy: Policy, round: nat, t: Transfer, i: nat, rx: Receiver)
    requires Books(s, t) && PeakOk(s.units, t.receiver) && i < |s.units| && rx == Send(s, policy, round, t, i).receiver
    ensures PeakOk(s.units, rx)
  {
    if !t.receiver.received[i] {
      TakeCounts(t.receiver.received, i, |s.units|);
      TakeKeepsBooks(s.units, t.receiver, i);
      assert t.receiver.peak + s.units[i].usefulLen == t.receiver.retained + s.units[i].usefulLen;
    }
  }

  lemma FlyPeakStep(s: Setup, policy: Policy, round: nat, t: Transfer, k: nat, before: Transfer, rx: Receiver)
    requires Shaped(s, t) && 0 < k <= |s.units| && before == Fly(s, policy, round, t, k - 1) && Books(s, before)
    requires PeakOk(s.units, before.receiver) && rx == Fly(s, policy, round, t, k).receiver
    ensures PeakOk(s.units, rx)
  {
    if Carries(policy, t.receiver.received, k - 1) {
      SendKeepsPeak(s, policy, round, before, k - 1, rx);
    }
  }

  lemma {:induction false} FlyKeepsPeak(s: Setup, policy: Policy, round: nat, t: Transfer, k: nat, rx: Receiver)
    requires Books(s, t) && PeakOk(s.units, t.receiver) && k <= |s.units| && rx == Fly(s, policy, round, t, k).receiver
    ensures PeakOk(s.units, rx)
  {
    if k > 0 {
      var before := Fly(s, policy, round, t, k - 1);
      FlyKeepsPeak(s, policy, round, t, k - 1, before.receiver);
      FlyKeepsBooks(s, policy, round, t, k - 1);
      FlyPeakStep(s, policy, round, t, k, before, rx);
    }
  }

  lemma AdvanceKeepsPeak(s: Setup, policy: Policy, round: nat, t: Transfer)
    requires Books(s, t) && PeakOk(s.units, t.receiver) && (!policy.Xor8Plus1? || round > 0)
    ensures PeakOk(s.units, Advance(s, policy, round, t).receiver)
  {
    FlyKeepsPeak(s, policy, round, t, |s.units|, Fly(s, policy, round, t, |s.units|).receiver);
  }

  /** After every round without parity the peak is exactly the most that was retained while incomplete. */
  lemma {:induction false} PeakWithoutParity(s: Setup, policy: Policy, rounds: nat)
    requires s.units != [] && !policy.Xor8Plus1?
    ensures PeakOk(s.units, After(s, policy, rounds).receiver)
  {
    if rounds > 0 {
      PeakWithoutParity(s, policy, rounds - 1);
      BooksAlwaysBalance(s, policy, rounds - 1);
      AdvanceKeepsPeak(s, policy, rounds - 1, After(s, policy, rounds - 1));
    }
  }

  // ---- The parity a receiver holds on to ----

  lemma {:induction false} LongestIsLongest(units: seq<DataUnit>, first: nat, count: nat)
    requires first + count <= |units|
    ensures forall i :: first <= i < first + count ==> units[i].usefulLen <= LongestUseful(units, first, count)
    ensures count > 0 ==> exists i :: first <= i < first + count && units[i].usefulLen == LongestUseful(units, first, count)
  {
    if count > 0 {
      LongestIsLongest(units, first, count - 1);
    }
  }

  /** A group's parity is as long as the longest unit it protects, and its datagram adds only the framing. */
  lemma ParityPayloadIsLongest(s: Setup, g: nat)
    requires g < GroupCount(|s.units|)
    ensures forall i :: 0 <= i < |s.units| && GroupOf(i) == g ==> s.units[i].usefulLen <= ParityPayload(s, g)
    ensures exists i :: 0 <= i < |s.units| && GroupOf(i) == g && s.units[i].usefulLen == ParityPayload(s, g)
                   && ParityWire(s, g) == s.auth + PARITY_HEADER_LEN + s.units[i].usefulLen
  {
    var first, count := g * FEC_DATA_PER_GROUP, GroupSize(|s.units|, g);
    LongestIsLongest(s.units, first, count);
    forall i | 0 <= i < |s.units|
      ensures GroupOf(i) == g <==> first <= i < first + count
    {
      GroupRange(|s.units|, g, i);
    }
    var i :| first <= i < first + count && s.units[i].usefulLen == LongestUseful(s.units, first, count);
    assert GroupOf(i) == g;
  }

  ghost predicate Incomplete(received: seq<bool>, g: nat) {
    exists i :: 0 <= i < |received| && GroupOf(i) == g && !received[i]
  }

  ghost predicate Gained(before: seq<bool>, after: seq<bool>, g: nat)
    requires |before| == |after|
  {
    exists i :: 0 <= i < |before| && GroupOf(i) == g && !before[i] && after[i]
  }

  /** Parity payload of the first `k` groups that arrived and did not complete its group. */
  ghost function KeptParity(s: Setup, after: seq<bool>, k: nat): nat
    requires |after| == |s.units| && k <= GroupCount(|s.units|)
  {
    if k == 0 then 0
    else KeptParity(s, after, k - 1) + if !ParityLost(s, k - 1) && Incomplete(after, k - 1) then ParityPayload(s, k - 1) else 0
  }

  /** The longest parity payload among the first `k` groups that was used to restore a unit. */
  ghost function UsedParity(s: Setup, before: seq<bool>, after: seq<bool>, k: nat): nat
    requires |before| == |after| == |s.units| && k <= GroupCount(|s.units|)
  {
    if k == 0 then 0
    else Max(UsedParity(s, before, after, k - 1), if Gained(before, after, k - 1) then ParityPayload(s, k - 1) else 0)
  }

  ghost predicate Restores(s: Setup, before: seq<bool>, after: seq<bool>) {
    && |before| == |after| == |s.units|
    && forall i :: 0 <= i < |s.units| ==> (after[i] <==> before[i] || Restorable(s, before, i))
  }

  /** How many units a group misses decides what its parity is good for. */
  lemma MissingDecides(s: Setup, before: seq<bool>, after: seq<bool>, g: nat)
    requires Restores(s, before, after) && g < GroupCount(|s.units|) && !ParityLost(s, g)
    ensures |MissingIn(|s.units|, before, g)| > 1 <==> Incomplete(after, g)
    ensures |MissingIn(|s.units|, before, g)| == 1 <==> Gained(before, after, g)
  {
    var first, count := g * FEC_DATA_PER_GROUP, GroupSize(|s.units|, g);
    var missing := MissingIn(|s.units|, before, g);
    NoneMissing(before, first, count);
    forall i | 0 <= i < |s.units|
      ensures GroupOf(i) == g <==> first <= i < first + count
      ensures missing == [i] <==> GroupOf(i) == g && Restorable(s, before, i)
    {
      GroupRange(|s.units|, g, i);
      OneMissing(before, first, count, i);
      AloneInGroup(before, g, i);
    }
    if |missing| == 1 {
      var x := missing[0];
      assert missing == [x];
      assert Gained(before, after, g);
    } else if |missing| > 1 {
      var x :| first <= x < first + count && !before[x];
      assert !after[x];
    }
  }

  lemma ParityIsKeptOrUsed(s: Setup, before: seq<bool>, after: seq<bool>, g: nat, missing: nat)
    requires Restores(s, before, after) && g < GroupCount(|s.units|) && missing == |MissingIn(|s.units|, before, g)|
    ensures !ParityLost(s, g) && missing > 1 <==> !ParityLost(s, g) && Incomplete(after, g)
    ensures !ParityLost(s, g) && missing == 1 <==> Gained(before, after, g)
  {
    if ParityLost(s, g) {
      NothingGained(s, before, after, g);
    } else {
      MissingDecides(s, before, after, g);
    }
  }

  lemma TallyGrows(s: Setup, before: seq<bool>, k: nat, missing: nat, r: Tally, t: Tally)
    requires |before| == |s.units| && 0 < k <= GroupCount(|s.units|) && missing == |MissingIn(|s.units|, before, k - 1)|
    requires r == ParityTally(s, before, k - 1) && t == ParityTally(s, before, k)
    ensures t.held == r.held + if !ParityLost(s, k - 1) && missing > 1 then ParityPayload(s, k - 1) else 0
    ensures t.scratch == Max(r.scratch, if !ParityLost(s, k - 1) && missing == 1 then ParityPayload(s, k - 1) else 0)
  {
  }

  /** The tally holds the parity kept and has the scratch of the parity used. */
  ghost predicate TallyFits(s: Setup, before: seq<bool>, after: seq<bool>, k: nat, t: Tally)
    requires |before| == |after| == |s.units| && k <= GroupCount(|s.units|)
  {
    t.held == KeptParity(s, after, k) && t.scratch == UsedParity(s, before, after, k)
  }

  lemma TallyFitsNext(s: Setup, before: seq<bool>, after: seq<bool>, k: nat, missing: nat, r: Tally, t: Tally)
    requires |before| == |after| == |s.units| && 0 < k <= GroupCount(|s.units|) && TallyFits(s, before, after, k - 1, r)
    requires !ParityLost(s, k - 1) && missing > 1 <==> !ParityLost(s, k - 1) && Incomplete(after, k - 1)
    requires !ParityLost(s, k - 1) && missing == 1 <==> Gained(before, after, k - 1)
    requires t.held == r.held + if !ParityLost(s, k - 1) && missing > 1 then ParityPayload(s, k - 1) else 0
    requires t.scratch == Max(r.scratch, if !ParityLost(s, k - 1) && missing == 1 then ParityPayload(s, k - 1) else 0)
    ensures TallyFits(s, before, after, k, t)
  {
  }

  lemma TallyStep(s: Setup, before: seq<bool>, after: seq<bool>, k: nat, r: Tally, t: Tally)
    requires Restores(s, before, after) && 0 < k <= GroupCount(|s.units|) && TallyFits(s, before, after, k - 1, r)
    requires r == ParityTally(s, before, k - 1) && t == ParityTally(s, before, k)
    ensures TallyFits(s, before, after, k, t)
  {
    var missing := |MissingIn(|s.units|, before, k - 1)|;
    ParityIsKeptOrUsed(s, before, after, k - 1, missing);
    TallyGrows(s, before, k, missing, r, t);
    TallyFitsNext(s, before, after, k, missing, r, t);
  }

  lemma {:induction false} TallyIsKept(s: Setup, before: seq<bool>, after: seq<bool>, k: nat, t: Tally)
    requires Restores(s, before, after) && k <= GroupCount(|s.units|) && t == ParityTally(s, before, k)
    ensures TallyFits(s, before, after, k, t)
  {
    if k > 0 {
      TallyIsKept(s, before, after, k - 1, ParityTally(s, before, k - 1));
      TallyStep(s, before, after, k, ParityTally(s, before, k - 1), t);
    }
  }

  lemma NothingGained(s: Setup, before: seq<bool>, after: seq<bool>, g: nat)
    requires Restores(s, before, after) && g < GroupCount(|s.units|) && ParityLost(s, g)
    ensures !Gained(before, after, g)
  {
  }

  ghost predicate PeakIs(rx: Receiver, during: nat) {
    rx.peak == if rx.remaining > 0 then Max(during, rx.retained) else during
  }

  lemma FlownPeak(s: Setup, flown: Transfer)
    requires s.units != [] && flown == Fly(s, Xor8Plus1, 0, Start(s), |s.units|) && flown.receiver.remaining > 0
    ensures flown.receiver.peak == flown.receiver.retained
  {
    StartKeepsBooks(s);
    FlyKeepsPeak(s, Xor8Plus1, 0, Start(s), |s.units|, flown.receiver);
  }

  /**
   * The peak of a first flight that left something to recover: what it delivered, the parity of the groups
   * that stay incomplete and the longest parity used, or what is retained afterwards if that is more.
   */
  lemma PeakWithParity(s: Setup, flown: Transfer, t: Transfer)
    requires s.units != [] && flown == Fly(s, Xor8Plus1, 0, Start(s), |s.units|) && flown.receiver.remaining > 0
    requires t == Advance(s, Xor8Plus1, 0, Start(s))
    ensures var groups, before, after := GroupCount(|s.units|), flown.receiver.received, t.receiver.received;
      PeakIs(t.receiver, flown.receiver.retained + KeptParity(s, after, groups) + UsedParity(s, before, after, groups))
  {
    FlownPeak(s, flown);
    FirstFlightRestores(s, flown, t);
    var groups := GroupCount(|s.units|);
    TallyIsKept(s, flown.receiver.received, t.receiver.received, groups, ParityTally(s, flown.receiver.received, groups));
    var lost := flown.(report := flown.report.(initialLoss := MissingUseful(s.units, flown.receiver.received)));
    FirstRoundIsParityPhase(s, lost, t);
    ParityPhasePeak(s, lost, t.receiver);
  }

  lemma FirstFlightRestores(s: Setup, flown: Transfer, t: Transfer)
    requires flown == Fly(s, Xor8Plus1, 0, Start(s), |s.units|) && t == Advance(s, Xor8Plus1, 0, Start(s))
    ensures Restores(s, flown.receiver.received, t.receiver.received)
  {
    forall i | 0 <= i < |s.units|
      ensures t.receiver.received[i] <==> flown.receiver.received[i] || Restorable(s, flown.receiver.received, i)
    {
      HeldAfterFirstFlight(s, i, t);
      FirstFlightDelivers(s, Xor8Plus1, flown, i);
      RestorableIsRestored(s, flown, i);
    }
  }

  lemma FirstRoundIsParityPhase(s: Setup, lost: Transfer, t: Transfer)
    requires s.units != [] && t == Advance(s, Xor8Plus1, 0, Start(s))
    requires var flown := Fly(s, Xor8Plus1, 0, Start(s), |s.units|);
      lost == flown.(report := flown.report.(initialLoss := MissingUseful(s.units, flown.receiver.received)))
    ensures t.receiver == ParityPhase(s, lost).receiver
  {
  }

  lemma {:induction false} RecoverGroupsKeepPeak(s: Setup, t: Transfer, k: nat)
    requires Shaped(s, t) && k <= GroupCount(|s.units|)
    ensures RecoverGroups(s, t, k).receiver.peak == t.receiver.peak
  {
    if k > 0 {
      RecoverGroupsKeepPeak(s, t, k - 1);
    }
  }

  lemma ParityPhasePeak(s: Setup, t: Transfer, rx: Receiver)
    requires Shaped(s, t) && t.receiver.remaining > 0 && t.receiver.peak == t.receiver.retained
    requires rx == ParityPhase(s, t).receiver
    ensures var tally := ParityTally(s, t.receiver.received, GroupCount(|s.units|));
      PeakIs(rx, t.receiver.retained + tally.held + tally.scratch)
  {
    var groups := GroupCount(|s.units|);
    RecoverGroupsKeepPeak(s, HoldParity(s, t, ParityTally(s, t.receiver.received, groups)), groups);
  }
}
