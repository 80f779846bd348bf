/**
 * The rate bound of the two limiters over every window of every run, and the bound it puts on the
 * bookkeeping that purging retains.
 */
module AdmissionRate {
  import opened Arithmetic
  import opened Options
  import opened Admission

  /** A limiter: the one all calls share, or the one of a single peer. */
  datatype Scope = Everyone | Only(peer: Ip)

  function Interval(cfg: Config, scope: Scope): nat {
    if scope.Everyone? then cfg.interval else PER_PEER_REFILL_INTERVAL
  }

  function Burst(cfg: Config, scope: Scope): nat {
    if scope.Everyone? then cfg.burst else PER_PEER_BULK_BURST
  }

  predicate InScope(scope: Scope, c: Call) {
    scope.Everyone? || c.peer == scope.peer
  }

  /** The theoretical arrival time of a limiter at time `t`, where paid-up debt counts as `t`. */
  function Debt(s: State, scope: Scope, t: int): int {
    match scope
    case Everyone => if s.globalTat.Some? then Max(s.globalTat.value, t) else t
    case Only(p) => if p in s.peers then Max(s.peers[p], t) else t
  }

  function ScopedLog(cfg: Config, s: State, calls: seq<Call>, scope: Scope): seq<Call> {
    if calls == [] then []
    else
      var front, c := calls[..|calls| - 1], calls[|calls| - 1];
      ScopedLog(cfg, s, front, scope)
        + if Answer(cfg, After(cfg, s, front), c).Admitted? && InScope(scope, c) then [c] else []
  }

  lemma DebtStep(cfg: Config, s: State, scope: Scope, c: Call)
    ensures
      var counted := Answer(cfg, s, c).Admitted? && InScope(scope, c);
      && Debt(Next(cfg, s, c), scope, c.now) == Debt(s, scope, c.now) + (if counted then Interval(cfg, scope) else 0)
      && (counted && Burst(cfg, scope) > 0 ==>
            Debt(s, scope, c.now) <= c.now + Interval(cfg, scope) * (Burst(cfg, scope) - 1))
  {
  }

  /** The entries of `log` are spaced as GCRA demands, and the debt at `t` covers all of them. */
  ghost predicate Conforms(log: seq<Call>, interval: nat, burst: nat, debt: int, t: int) {
    && (forall i :: 0 <= i < |log| ==> log[i].now <= t && log[i].now + (|log| - i) * interval <= debt)
    && (forall i, j :: 0 <= i <= j < |log| ==>
          (j - i + 1) * interval <= log[j].now - log[i].now + burst * interval)
  }

  lemma ConformsGrows(log: seq<Call>, interval: nat, burst: nat, debt: int, t: int, c: Call)
    requires Conforms(log, interval, burst, debt, t) && t <= c.now && burst > 0
    requires Max(debt, c.now) <= c.now + interval * (burst - 1)
    ensures Conforms(log + [c], interval, burst, Max(debt, c.now) + interval, c.now)
  {
    var longer, n := log + [c], |log|;
    assert interval * (burst - 1) + interval == burst * interval;
    forall i | 0 <= i < |longer|
      ensures longer[i].now <= c.now && longer[i].now + (|longer| - i) * interval <= Max(debt, c.now) + interval
    {
      assert (|longer| - i) * interval == (n - i) * interval + interval;
    }
    forall i, j | 0 <= i <= j < |longer|
      ensures (j - i + 1) * interval <= longer[j].now - longer[i].now + burst * interval
    {
      if j < n {
        assert longer[j] == log[j] && longer[i] == log[i];
      } else {
        assert longer[i].now + (|longer| - i) * interval <= Max(debt, c.now) + interval;
      }
    }
  }

  lemma ConformsStep(cfg: Config, s: State, scope: Scope, log: seq<Call>, t: int, c: Call)
    requires Burst(cfg, scope) > 0 && t <= c.now
    requires Conforms(log, Interval(cfg, scope), Burst(cfg, scope), Debt(s, scope, t), t)
    ensures
      var counted := Answer(cfg, s, c).Admitted? && InScope(scope, c);
      Conforms(log + if counted then [c] else [], Interval(cfg, scope), Burst(cfg, scope), Debt(Next(cfg, s, c), scope, c.now), c.now)
  {
    DebtStep(cfg, s, scope, c);
    assert Debt(s, scope, c.now) == Max(Debt(s, scope, t), c.now);
    if Answer(cfg, s, c).Admitted? && InScope(scope, c) {
      ConformsGrows(log, Interval(cfg, scope), Burst(cfg, scope), Debt(s, scope, t), t, c);
    } else {
      assert log + [] == log;
    }
  }

  lemma {:induction false} LogConforms(cfg: Config, s: State, calls: seq<Call>, scope: Scope)
    requires Ordered(calls) && calls != [] && Burst(cfg, scope) > 0
    ensures
      var t := calls[|calls| - 1].now;
      Conforms(ScopedLog(cfg, s, calls, scope), Interval(cfg, scope), Burst(cfg, scope), Debt(After(cfg, s, calls), scope, t), t)
  {
    var n := |calls| - 1;
    var front := calls[..n];
    if front != [] {
      LogConforms(cfg, s, front, scope);
    }
    var t := if front == [] then calls[n].now else front[n - 1].now;
    ConformsStep(cfg, After(cfg, s, front), scope, ScopedLog(cfg, s, front, scope), t, calls[n]);
  }

  lemma ConformingWindow(log: seq<Call>, interval: nat, burst: nat, debt: int, t: int, i: nat, j: nat)
    requires Conforms(log, interval, burst, debt, t) && interval > 0 && i <= j < |log|
    ensures j - i + 1 <= burst + (log[j].now - log[i].now) / interval
  {
    DivideThrough(j - i + 1, log[j].now - log[i].now, burst, interval);
  }

  /**
   * The rate bound: in every run from any state, admissions `i..j` of a limiter (all calls, or one
   * peer's) number at most its burst plus the window they span divided by its interval.
   */
  lemma WindowBound(cfg: Config, s: State, calls: seq<Call>, scope: Scope, log: seq<Call>, i: nat, j: nat)
    requires Ordered(calls) && Burst(cfg, scope) > 0 && Interval(cfg, scope) > 0
    requires log == ScopedLog(cfg, s, calls, scope) && i <= j < |log|
    ensures j - i + 1 <= Burst(cfg, scope) + (log[j].now - log[i].now) / Interval(cfg, scope)
  {
    LogConforms(cfg, s, calls, scope);
    var t := calls[|calls| - 1].now;
    ConformingWindow(log, Interval(cfg, scope), Burst(cfg, scope), Debt(After(cfg, s, calls), scope, t), t, i, j);
  }

  lemma DivideThrough(count: nat, span: int, burst: nat, interval: nat)
    requires interval > 0 && count * interval <= span + burst * interval
    ensures count <= burst + span / interval
  {
    var k, q := count - burst, span / interval;
    assert k * interval == count * interval - burst * interval;
    assert span < q * interval + interval;
    assert (q + 1) * interval == q * interval + interval;
    if k > q {
      MulAtMost(q + 1, k, interval);
    }
  }

  // ---- Retained state ----

  ghost predicate PeerBacked(s: State, log: seq<Call>, p: Ip)
    requires p in s.peers
  {
    exists j :: 0 <= j < |log| && log[j].peer == p && s.peers[p] <= log[j].now + PER_PEER_BULK_BURST * SECOND
  }

  ghost predicate WorkBacked(s: State, log: seq<Call>, p: Ip, channel: Channel)
    requires p in RecentOf(s, channel)
  {
    exists j :: 0 <= j < |log| && log[j].peer == p && log[j].channel == channel &&
      RecentOf(s, channel)[p].forgetAfter == log[j].now + RETENTION
  }

  /** Every retained arrival time and every remembered work goes back to a logged admission. */
  ghost predicate Backed(s: State, log: seq<Call>) {
    && (forall p :: p in s.peers ==> PeerBacked(s, log, p))
    && (forall p, channel :: p in RecentOf(s, channel) ==> WorkBacked(s, log, p, channel))
  }

  /** What the last call at `t` leaves is live at `t`. */
  ghost predicate Live(s: State, t: int) {
    && (forall p :: p in s.peers ==> s.peers[p] > t)
    && (forall p, channel :: p in RecentOf(s, channel) ==> RecentOf(s, channel)[p].forgetAfter > t)
  }

  function Logged(cfg: Config, s: State, log: seq<Call>, c: Call): seq<Call> {
    log + if Answer(cfg, s, c).Admitted? then [c] else []
  }

  lemma PeerBackedStep(cfg: Config, s: State, log: seq<Call>, c: Call, p: Ip)
    requires Backed(s, log) && cfg.rate > 0 && p in Next(cfg, s, c).peers
    ensures PeerBacked(Next(cfg, s, c), Logged(cfg, s, log, c), p)
  {
    var log' := Logged(cfg, s, log, c);
    if Answer(cfg, s, c).Admitted? && p == c.peer {
      assert log'[|log|] == c;
    } else {
      assert PeerBacked(s, log, p);
      var j :| 0 <= j < |log| && log[j].peer == p && s.peers[p] <= log[j].now + PER_PEER_BULK_BURST * SECOND;
      assert log'[j] == log[j];
    }
  }

  lemma WorkBackedStep(cfg: Config, s: State, log: seq<Call>, c: Call, p: Ip, channel: Channel)
    requires Backed(s, log) && cfg.rate > 0 && p in RecentOf(Next(cfg, s, c), channel)
    ensures WorkBacked(Next(cfg, s, c), Logged(cfg, s, log, c), p, channel)
  {
    var log' := Logged(cfg, s, log, c);
    if Answer(cfg, s, c).Admitted? && p == c.peer && channel == c.channel {
      assert log'[|log|] == c;
    } else {
      assert p in RecentOf(s, channel) && WorkBacked(s, log, p, channel);
      var j :| 0 <= j < |log| && log[j].peer == p && log[j].channel == channel &&
        RecentOf(s, channel)[p].forgetAfter == log[j].now + RETENTION;
      assert log'[j] == log[j];
    }
  }

  lemma LiveStep(cfg: Config, s: State, c: Call)
    requires cfg.rate > 0
    ensures Live(Next(cfg, s, c), c.now)
  {
  }

  lemma BackedStep(cfg: Config, s: State, log: seq<Call>, c: Call)
    requires Backed(s, log) && cfg.rate > 0
    ensures Backed(Next(cfg, s, c), Logged(cfg, s, log, c))
  {
    forall p | p in Next(cfg, s, c).peers
      ensures PeerBacked(Next(cfg, s, c), Logged(cfg, s, log, c), p)
    {
      PeerBackedStep(cfg, s, log, c, p);
    }
    forall p, channel | p in RecentOf(Next(cfg, s, c), channel)
      ensures WorkBacked(Next(cfg, s, c), Logged(cfg, s, log, c), p, channel)
    {
      WorkBackedStep(cfg, s, log, c, p, channel);
    }
  }

  lemma {:induction false} RunIsBacked(cfg: Config, calls: seq<Call>)
    requires cfg.rate > 0
    ensures Backed(After(cfg, EMPTY, calls), ScopedLog(cfg, EMPTY, calls, Everyone))
    ensures calls != [] ==> Live(After(cfg, EMPTY, calls), calls[|calls| - 1].now)
  {
    if calls != [] {
      var n := |calls| - 1;
      RunIsBacked(cfg, calls[..n]);
      BackedStep(cfg, After(cfg, EMPTY, calls[..n]), ScopedLog(cfg, EMPTY, calls[..n], Everyone), calls[n]);
      LiveStep(cfg, After(cfg, EMPTY, calls[..n]), calls[n]);
    }
  }

  /** The first admission of the log later than `t`; the log is in time order. */
  function Since(log: seq<Call>, t: int): (i: nat)
    ensures i <= |log| && (forall j :: i <= j < |log| ==> log[j].now > t)
    ensures i > 0 ==> log[i - 1].now <= t
  {
    if log == [] || log[|log| - 1].now <= t then |log| else Since(log[..|log| - 1], t)
  }

  lemma LaterIsSince(log: seq<Call>, t: int, j: nat)
    requires Ordered(log) && j < |log|
    ensures log[j].now > t <==> j >= Since(log, t)
  {
    var i := Since(log, t);
    if j + 1 < i {
      assert log[j].now <= log[i - 1].now;
    }
  }

  lemma {:induction false} LogOrdered(cfg: Config, s: State, calls: seq<Call>, scope: Scope)
    requires Ordered(calls)
    ensures Ordered(ScopedLog(cfg, s, calls, scope))
    ensures forall i :: 0 <= i < |ScopedLog(cfg, s, calls, scope)| ==> ScopedLog(cfg, s, calls, scope)[i] in calls
  {
    if calls != [] {
      LogOrdered(cfg, s, calls[..|calls| - 1], scope);
    }
  }

  lemma SuffixAt(cfg: Config, calls: seq<Call>, span: nat, log: seq<Call>, i: nat)
    requires Ordered(calls) && calls != [] && cfg.rate > 0 && cfg.interval > 0 && cfg.burst > 0
    requires log == ScopedLog(cfg, EMPTY, calls, Everyone) && i < |log| && log[|log| - 1].now - log[i].now <= span
    ensures |log| - i <= cfg.burst + span / cfg.interval
  {
    WindowBound(cfg, EMPTY, calls, Everyone, log, i, |log| - 1);
    DivideMonotone(log[|log| - 1].now - log[i].now, span, cfg.interval);
  }

  lemma AdmissionsAreNotLater(cfg: Config, calls: seq<Call>, log: seq<Call>, i: nat)
    requires Ordered(calls) && calls != [] && log == ScopedLog(cfg, EMPTY, calls, Everyone) && i < |log|
    ensures log[i].now <= calls[|calls| - 1].now
  {
    LogOrdered(cfg, EMPTY, calls, Everyone);
    assert log[i] in calls;
  }

  /** The admissions of a run later than `t - span` number at most the burst plus the span's refill. */
  lemma SuffixBound(cfg: Config, calls: seq<Call>, span: nat, log: seq<Call>)
    requires Ordered(calls) && calls != [] && cfg.rate > 0 && cfg.interval > 0 && cfg.burst > 0
    requires log == ScopedLog(cfg, EMPTY, calls, Everyone)
    ensures |log| - Since(log, calls[|calls| - 1].now - span) <= cfg.burst + span / cfg.interval
  {
    var t := calls[|calls| - 1].now;
    var i := Since(log, t - span);
    if i < |log| {
      AdmissionsAreNotLater(cfg, calls, log, |log| - 1);
      SuffixAt(cfg, calls, span, log, i);
    } else {
      DivideMonotone(0, span, cfg.interval);
    }
  }

  lemma DivideMonotone(a: int, b: int, d: nat)
    requires a <= b && d > 0
    ensures a / d <= b / d
  {
    assert b < (b / d) * d + d && (a / d) * d <= a;
    if a / d > b / d {
      MulAtMost(b / d + 1, a / d, d);
    }
  }

  function PeersOf(log: seq<Call>): set<Ip> {
    set c | c in log :: c.peer
  }

  function WorkOf(log: seq<Call>): set<(Ip, Channel)> {
    set c | c in log :: (c.peer, c.channel)
  }

  lemma {:induction false} FewPeers(log: seq<Call>)
    ensures |PeersOf(log)| <= |log| && |WorkOf(log)| <= |log|
  {
    if log != [] {
      var front, c := log[..|log| - 1], log[|log| - 1];
      FewPeers(front);
      assert log == front + [c];
      assert PeersOf(log) == PeersOf(front) + {c.peer};
      assert WorkOf(log) == WorkOf(front) + {(c.peer, c.channel)};
    }
  }

  lemma SubsetIsSmaller<T>(a: set<T>, b: set<T>)
    requires a <= b
    ensures |a| <= |b|
  {
    assert b == a + (b - a);
  }

  lemma InSuffix(log: seq<Call>, i: nat, j: nat)
    requires i <= j < |log|
    ensures log[j].peer in PeersOf(log[i..]) && (log[j].peer, log[j].channel) in WorkOf(log[i..])
  {
    assert log[i..][j - i] == log[j];
  }

  lemma LivePeerIsLogged(s: State, log: seq<Call>, t: int, p: Ip, i: nat)
    requires Ordered(log) && p in s.peers && PeerBacked(s, log, p) && s.peers[p] > t
    requires i == Since(log, t - PER_PEER_BULK_BURST * SECOND)
    ensures p in PeersOf(log[i..])
  {
    var j :| 0 <= j < |log| && log[j].peer == p && s.peers[p] <= log[j].now + PER_PEER_BULK_BURST * SECOND;
    LaterIsSince(log, t - PER_PEER_BULK_BURST * SECOND, j);
    InSuffix(log, i, j);
  }

  lemma LivePeersAreRecent(s: State, log: seq<Call>, t: int)
    requires Backed(s, log) && Live(s, t) && Ordered(log)
    ensures |s.peers| <= |log| - Since(log, t - PER_PEER_BULK_BURST * SECOND)
  {
    var i := Since(log, t - PER_PEER_BULK_BURST * SECOND);
    var suffix := log[i..];
    forall p | p in s.peers
      ensures p in PeersOf(suffix)
    {
      LivePeerIsLogged(s, log, t, p, i);
    }
    SubsetIsSmaller(s.peers.Keys, PeersOf(suffix));
    FewPeers(suffix);
  }

  lemma LiveWorkIsLogged(s: State, log: seq<Call>, t: int, p: Ip, channel: Channel, i: nat)
    requires Ordered(log) && p in RecentOf(s, channel) && WorkBacked(s, log, p, channel)
    requires RecentOf(s, channel)[p].forgetAfter > t && i == Since(log, t - RETENTION)
    ensures (p, channel) in WorkOf(log[i..])
  {
    var j :| 0 <= j < |log| && log[j].peer == p && log[j].channel == channel &&
      RecentOf(s, channel)[p].forgetAfter == log[j].now + RETENTION;
    LaterIsSince(log, t - RETENTION, j);
    InSuffix(log, i, j);
  }

  lemma LiveChannelIsLogged(s: State, log: seq<Call>, t: int, channel: Channel, i: nat)
    requires Backed(s, log) && Live(s, t) && Ordered(log) && i == Since(log, t - RETENTION)
    ensures Tagged(RecentOf(s, channel).Keys, channel) <= WorkOf(log[i..])
  {
    forall p | p in RecentOf(s, channel)
      ensures (p, channel) in WorkOf(log[i..])
    {
      assert WorkBacked(s, log, p, channel);
      LiveWorkIsLogged(s, log, t, p, channel, i);
    }
  }

  lemma DisjointParts<T>(a: set<T>, b: set<T>, whole: set<T>)
    requires a <= whole && b <= whole && a !! b
    ensures |a| + |b| <= |whole|
  {
    SubsetIsSmaller(a + b, whole);
  }

  lemma LiveWorkIsRecent(s: State, log: seq<Call>, t: int)
    requires Backed(s, log) && Live(s, t) && Ordered(log)
    ensures |s.recentDated| + |s.recentValue| <= |log| - Since(log, t - RETENTION)
  {
    var i := Since(log, t - RETENTION);
    LiveChannelIsLogged(s, log, t, DatedDump, i);
    LiveChannelIsLogged(s, log, t, ValueOnlyDump, i);
    TaggedSize(s.recentDated.Keys, DatedDump);
    TaggedSize(s.recentValue.Keys, ValueOnlyDump);
    DisjointParts(Tagged(s.recentDated.Keys, DatedDump), Tagged(s.recentValue.Keys, ValueOnlyDump), WorkOf(log[i..]));
    FewPeers(log[i..]);
  }

  /** After every call the peer table holds at most `burst + 3s/interval` entries. */
  lemma PeerTableIsBounded(cfg: Config, calls: seq<Call>)
    requires Ordered(calls) && calls != [] && cfg.rate > 0 && cfg.interval > 0 && cfg.burst > 0
    ensures |After(cfg, EMPTY, calls).peers| <= cfg.burst + (3 * SECOND) / cfg.interval
  {
    RunIsBacked(cfg, calls);
    LogOrdered(cfg, EMPTY, calls, Everyone);
    LivePeersAreRecent(After(cfg, EMPTY, calls), ScopedLog(cfg, EMPTY, calls, Everyone), calls[|calls| - 1].now);
    SuffixBound(cfg, calls, 3 * SECOND, ScopedLog(cfg, EMPTY, calls, Everyone));
  }

  /** After every call the two tables of recent work together hold at most `burst + 60s/interval`. */
  lemma RecentTablesAreBounded(cfg: Config, calls: seq<Call>)
    requires Ordered(calls) && calls != [] && cfg.rate > 0 && cfg.interval > 0 && cfg.burst > 0
    ensures |After(cfg, EMPTY, calls).recentDated| + |After(cfg, EMPTY, calls).recentValue|
            <= cfg.burst + RETENTION / cfg.interval
  {
    RunIsBacked(cfg, calls);
    LogOrdered(cfg, EMPTY, calls, Everyone);
    LiveWorkIsRecent(After(cfg, EMPTY, calls), ScopedLog(cfg, EMPTY, calls, Everyone), calls[|calls| - 1].now);
    SuffixBound(cfg, calls, RETENTION, ScopedLog(cfg, EMPTY, calls, Everyone));
  }

  function Tagged(peers: set<Ip>, channel: Channel): set<(Ip, Channel)> {
    set p | p in peers :: (p, channel)
  }

  lemma {:induction false} TaggedSize(peers: set<Ip>, channel: Channel)
    ensures |Tagged(peers, channel)| == |peers|
  {
    if peers != {} {
      var p :| p in peers;
      TaggedSize(peers - {p}, channel);
      assert Tagged(peers, channel) == Tagged(peers - {p}, channel) + {(p, channel)};
    }
  }
}
