/**
 * Admission seen through whole histories: its decisions are those of token buckets that never
 * forget anything, rejected calls leave no trace, and repeated work really backs off.
 */
module AdmissionHistory {
  import opened Options
  import opened Arithmetic
  import opened Admission
  import opened AdmissionRate

  // ---- The reference: token buckets without purging ----

  datatype Bucket = Bucket(level: int, at: int)

  datatype Reference = Reference(
    peers: map<Ip, Bucket>,
    everyone: Bucket,
    dated: map<Ip, Recent>,
    value: map<Ip, Recent>)

  /** A limiter's bucket holds its whole burst, counted in nanoseconds of refill. */
  function Capacity(cfg: Config, scope: Scope): nat {
    Interval(cfg, scope) * Burst(cfg, scope)
  }

  function Refill(b: Bucket, t: int, capacity: nat): int {
    Min(capacity, b.level + (t - b.at))
  }

  function Level(cfg: Config, r: Reference, scope: Scope, t: int): int {
    match scope
    case Everyone => Refill(r.everyone, t, Capacity(cfg, scope))
    case Only(p) => if p in r.peers then Refill(r.peers[p], t, Capacity(cfg, scope)) else Capacity(cfg, scope)
  }

  /** Work admitted less than the retention period ago. */
  function LiveAt(m: map<Ip, Recent>, p: Ip, t: int): Option<Recent> {
    if p in m && m[p].forgetAfter > t then Some(m[p]) else None
  }

  function ReferenceRecent(r: Reference, channel: Channel): map<Ip, Recent> {
    if channel.DatedDump? then r.dated else r.value
  }

  function ReferenceAnswer(cfg: Config, r: Reference, c: Call): Verdict {
    var work := LiveAt(ReferenceRecent(r, c.channel), c.peer, c.now);
    if cfg.rate == 0 then GlobalRate
    else if work.Some? && work.value.fingerprint == c.fingerprint && work.value.retryAfter > c.now then RepeatedWork
    else if Level(cfg, r, Only(c.peer), c.now) < PER_PEER_REFILL_INTERVAL then PeerRate
    else if Level(cfg, r, Everyone, c.now) < cfg.interval then GlobalRate
    else Admitted
  }

  function ReferenceRemember(m: map<Ip, Recent>, c: Call): map<Ip, Recent> {
    var work := LiveAt(m, c.peer, c.now);
    var delay: nat := if work.Some? && work.value.fingerprint == c.fingerprint
      then Min(2 * work.value.retryDelay, RETRY_MAX) else RETRY_MIN;
    m[c.peer := Recent(c.fingerprint, c.now + delay, delay, c.now + RETENTION)]
  }

  function ReferenceNext(cfg: Config, r: Reference, c: Call): Reference {
    if ReferenceAnswer(cfg, r, c).Admitted? then
      Reference(r.peers[c.peer := Bucket(Level(cfg, r, Only(c.peer), c.now) - PER_PEER_REFILL_INTERVAL, c.now)],
                Bucket(Level(cfg, r, Everyone, c.now) - cfg.interval, c.now),
                if c.channel.DatedDump? then ReferenceRemember(r.dated, c) else r.dated,
                if c.channel.DatedDump? then r.value else ReferenceRemember(r.value, c))
    else r
  }

  function ReferenceAfter(cfg: Config, r: Reference, calls: seq<Call>): Reference {
    if calls == [] then r
    else ReferenceNext(cfg, ReferenceAfter(cfg, r, calls[..|calls| - 1]), calls[|calls| - 1])
  }

  /** Full buckets and no history, as of time `t`. */
  function FullAt(cfg: Config, t: int): Reference {
    Reference(map[], Bucket(Capacity(cfg, Everyone), t), map[], map[])
  }

  /** The credit of each bucket is its capacity less the limiter's outstanding debt. */
  ghost predicate SameCredit(cfg: Config, s: State, r: Reference, t: int) {
    forall scope :: Level(cfg, r, scope, t) == Capacity(cfg, scope) - (Debt(s, scope, t) - t)
  }

  ghost predicate SameWork(s: State, r: Reference, t: int) {
    forall channel, p :: LiveAt(RecentOf(s, channel), p, t) == LiveAt(ReferenceRecent(r, channel), p, t)
  }

  lemma CreditElapses(cfg: Config, s: State, r: Reference, t: int, t': int)
    requires SameCredit(cfg, s, r, t) && t <= t'
    ensures SameCredit(cfg, s, r, t')
  {
    forall scope
      ensures Level(cfg, r, scope, t') == Capacity(cfg, scope) - (Debt(s, scope, t') - t')
    {
      assert Level(cfg, r, scope, t) == Capacity(cfg, scope) - (Debt(s, scope, t) - t);
    }
  }

  lemma WorkElapses(s: State, r: Reference, t: int, t': int)
    requires SameWork(s, r, t) && t <= t'
    ensures SameWork(s, r, t')
  {
    forall channel, p
      ensures LiveAt(RecentOf(s, channel), p, t') == LiveAt(ReferenceRecent(r, channel), p, t')
    {
      assert LiveAt(RecentOf(s, channel), p, t) == LiveAt(ReferenceRecent(r, channel), p, t);
    }
  }

  lemma PurgedWork(s: State, channel: Channel, p: Ip, t: int)
    ensures LiveAt(RecentOf(s, channel), p, t) ==
      if p in RecentOf(Purge(s, t), channel) then Some(RecentOf(Purge(s, t), channel)[p]) else None
  {
  }

  lemma SameAnswer(cfg: Config, s: State, r: Reference, c: Call)
    requires SameCredit(cfg, s, r, c.now) && SameWork(s, r, c.now) && cfg.burst > 0
    ensures Answer(cfg, s, c) == ReferenceAnswer(cfg, r, c)
  {
    PurgedWork(s, c.channel, c.peer, c.now);
    assert LiveAt(RecentOf(s, c.channel), c.peer, c.now) == LiveAt(ReferenceRecent(r, c.channel), c.peer, c.now);
    assert Level(cfg, r, Everyone, c.now) == Capacity(cfg, Everyone) - (Debt(s, Everyone, c.now) - c.now);
    assert Level(cfg, r, Only(c.peer), c.now) == Capacity(cfg, Only(c.peer)) - (Debt(s, Only(c.peer), c.now) - c.now);
    assert cfg.interval * (cfg.burst - 1) == cfg.interval * cfg.burst - cfg.interval;
  }

  lemma CreditStep(cfg: Config, s: State, r: Reference, c: Call)
    requires SameCredit(cfg, s, r, c.now) && Answer(cfg, s, c) == ReferenceAnswer(cfg, r, c)
    ensures SameCredit(cfg, Next(cfg, s, c), ReferenceNext(cfg, r, c), c.now)
  {
    var s', r' := Next(cfg, s, c), ReferenceNext(cfg, r, c);
    forall scope
      ensures Level(cfg, r', scope, c.now) == Capacity(cfg, scope) - (Debt(s', scope, c.now) - c.now)
    {
      DebtStep(cfg, s, scope, c);
      assert Level(cfg, r, scope, c.now) == Capacity(cfg, scope) - (Debt(s, scope, c.now) - c.now);
    }
  }

  lemma WorkStep(cfg: Config, s: State, r: Reference, c: Call)
    requires SameWork(s, r, c.now) && Answer(cfg, s, c) == ReferenceAnswer(cfg, r, c)
    ensures SameWork(Next(cfg, s, c), ReferenceNext(cfg, r, c), c.now)
  {
    var s', r' := Next(cfg, s, c), ReferenceNext(cfg, r, c);
    forall channel, p
      ensures LiveAt(RecentOf(s', channel), p, c.now) == LiveAt(ReferenceRecent(r', channel), p, c.now)
    {
      PurgedWork(s, channel, p, c.now);
      assert LiveAt(RecentOf(s, channel), p, c.now) == LiveAt(ReferenceRecent(r, channel), p, c.now);
    }
  }

  lemma {:induction false} SameHistory(cfg: Config, calls: seq<Call>, start: int, t: int)
    requires Ordered(calls) && cfg.burst > 0
    requires start <= t && forall c :: c in calls ==> start <= c.now <= t
    ensures SameCredit(cfg, After(cfg, EMPTY, calls), ReferenceAfter(cfg, FullAt(cfg, start), calls), t)
    ensures SameWork(After(cfg, EMPTY, calls), ReferenceAfter(cfg, FullAt(cfg, start), calls), t)
  {
    if calls != [] {
      var n := |calls| - 1;
      var front, c := calls[..n], calls[n];
      var s, r := After(cfg, EMPTY, front), ReferenceAfter(cfg, FullAt(cfg, start), front);
      SameHistory(cfg, front, start, c.now);
      SameAnswer(cfg, s, r, c);
      CreditStep(cfg, s, r, c);
      WorkStep(cfg, s, r, c);
      CreditElapses(cfg, Next(cfg, s, c), ReferenceNext(cfg, r, c), c.now, t);
      WorkElapses(Next(cfg, s, c), ReferenceNext(cfg, r, c), c.now, t);
    }
  }

  /**
   * Refinement: after any run the next call gets the verdict of the token buckets that refill one
   * nanosecond of credit per nanosecond and forget nothing. Purging is therefore unobservable.
   */
  lemma DecidesAsTokenBuckets(cfg: Config, calls: seq<Call>, start: int, c: Call)
    requires Ordered(calls + [c]) && cfg.burst > 0 && start <= c.now
    requires forall d :: d in calls ==> start <= d.now
    ensures Answer(cfg, After(cfg, EMPTY, calls), c) ==
            ReferenceAnswer(cfg, ReferenceAfter(cfg, FullAt(cfg, start), calls), c)
  {
    forall d | d in calls
      ensures d.now <= c.now
    {
      var i :| 0 <= i < |calls| && calls[i] == d;
      assert (calls + [c])[i] == d && (calls + [c])[|calls|] == c;
    }
    forall i, j | 0 <= i < j < |calls|
      ensures calls[i].now <= calls[j].now
    {
      assert calls[i] == (calls + [c])[i] && calls[j] == (calls + [c])[j];
    }
    SameHistory(cfg, calls, start, c.now);
    SameAnswer(cfg, After(cfg, EMPTY, calls), ReferenceAfter(cfg, FullAt(cfg, start), calls), c);
  }

  // ---- Rejections leave no trace ----

  lemma PurgeTwice(s: State, t: int, t': int)
    requires t <= t'
    ensures Purge(Purge(s, t), t') == Purge(s, t')
  {
  }

  lemma {:induction false} RejectedCallsVanish(cfg: Config, s: State, calls: seq<Call>, t: int)
    requires Ordered(calls) && forall c :: c in calls ==> c.now <= t
    ensures Purge(After(cfg, s, calls), t) == Purge(After(cfg, s, ScopedLog(cfg, s, calls, Everyone)), t)
  {
    if calls != [] {
      var n := |calls| - 1;
      var front, c := calls[..n], calls[n];
      RejectedCallsVanish(cfg, s, front, c.now);
      var before, replay := After(cfg, s, front), After(cfg, s, ScopedLog(cfg, s, front, Everyone));
      assert Answer(cfg, before, c) == Answer(cfg, replay, c);
      if Answer(cfg, before, c).Admitted? {
        assert (ScopedLog(cfg, s, front, Everyone) + [c])[..|ScopedLog(cfg, s, front, Everyone)|] == ScopedLog(cfg, s, front, Everyone);
      } else {
        assert ScopedLog(cfg, s, front, Everyone) + [] == ScopedLog(cfg, s, front, Everyone);
        PurgeTwice(before, c.now, t);
        PurgeTwice(replay, c.now, t);
      }
    }
  }

  /** Deleting every rejected call from a run changes no later decision. */
  lemma RejectionsAreInvisible(cfg: Config, s: State, calls: seq<Call>, c: Call)
    requires Ordered(calls) && forall d :: d in calls ==> d.now <= c.now
    ensures Answer(cfg, After(cfg, s, calls), c) == Answer(cfg, After(cfg, s, ScopedLog(cfg, s, calls, Everyone)), c)
  {
    RejectedCallsVanish(cfg, s, calls, c.now);
  }

  // ---- Backoff of repeated work ----

  /** The admissions of one peer on one channel. */
  function WorkLog(cfg: Config, calls: seq<Call>, p: Ip, channel: Channel): seq<Call> {
    if calls == [] then []
    else
      var front, c := calls[..|calls| - 1], calls[|calls| - 1];
      WorkLog(cfg, front, p, channel)
        + if Answer(cfg, After(cfg, EMPTY, front), c).Admitted? && c.peer == p && c.channel == channel then [c] else []
  }

  /** The last two admissions repeat the same work before it is forgotten. */
  predicate Repeats(log: seq<Call>) {
    var n := |log|;
    n >= 2 && log[n - 1].fingerprint == log[n - 2].fingerprint && log[n - 1].now - log[n - 2].now < RETENTION
  }

  /** How many times in a row the last admitted work has been repeated. */
  function Streak(log: seq<Call>): nat {
    if Repeats(log) then Streak(log[..|log| - 1]) + 1 else 0
  }

  function Backoff(streak: nat): nat {
    if streak == 0 then RETRY_MIN else Min(2 * Backoff(streak - 1), RETRY_MAX)
  }

  /** The delays are 1, 2, 4, 8 and 16 seconds, then 30 seconds for good. */
  lemma {:induction false} BackoffSchedule(streak: nat)
    ensures Backoff(0) == 1 * SECOND && Backoff(1) == 2 * SECOND && Backoff(2) == 4 * SECOND
    ensures Backoff(3) == 8 * SECOND && Backoff(4) == 16 * SECOND
    ensures streak >= 5 ==> Backoff(streak) == 30 * SECOND
  {
    assert Backoff(1) == 2 * SECOND && Backoff(2) == 4 * SECOND && Backoff(3) == 8 * SECOND && Backoff(4) == 16 * SECOND;
    if streak > 5 {
      BackoffSchedule(streak - 1);
    }
  }

  /** What the table remembers of the work log at time `t`. */
  ghost predicate Remembers(m: map<Ip, Recent>, p: Ip, log: seq<Call>, t: int) {
    if log == [] then p !in m
    else
      var last, delay := log[|log| - 1], Backoff(Streak(log));
      && last.now <= t
      && (p in m ==> m[p] == Recent(last.fingerprint, last.now + delay, delay, last.now + RETENTION))
      && (p !in m ==> last.now + RETENTION <= t)
  }

  /** Every repetition waits out the delay its streak has earned. */
  ghost predicate BacksOff(log: seq<Call>) {
    forall j :: 0 < j < |log| ==> BacksOffAt(log, j)
  }

  ghost predicate BacksOffAt(log: seq<Call>, j: nat)
    requires 0 < j < |log|
  {
    Repeats(log[..j + 1]) ==> log[j].now - log[j - 1].now >= Backoff(Streak(log[..j]))
  }

  lemma PrefixBacksOff(log: seq<Call>, longer: seq<Call>, j: nat)
    requires 0 < j < |log| && log <= longer && BacksOffAt(log, j)
    ensures BacksOffAt(longer, j)
  {
    assert longer[..j + 1] == log[..j + 1] && longer[..j] == log[..j];
  }

  lemma LastBacksOff(log: seq<Call>, c: Call)
    requires log != [] && (Repeats(log + [c]) ==> c.now - log[|log| - 1].now >= Backoff(Streak(log)))
    ensures BacksOffAt(log + [c], |log|)
  {
    assert (log + [c])[..|log| + 1] == log + [c] && (log + [c])[..|log|] == log;
  }

  lemma BacksOffGrows(log: seq<Call>, c: Call)
    requires BacksOff(log)
    requires Repeats(log + [c]) ==> c.now - log[|log| - 1].now >= Backoff(Streak(log))
    ensures BacksOff(log + [c])
  {
    forall j | 0 < j < |log + [c]|
      ensures BacksOffAt(log + [c], j)
    {
      if j < |log| {
        PrefixBacksOff(log, log + [c], j);
      } else {
        LastBacksOff(log, c);
      }
    }
  }

  lemma RememberAdmission(m: map<Ip, Recent>, log: seq<Call>, t: int, c: Call)
    requires Remembers(m, c.peer, log, t) && t <= c.now
    requires
      var live := PurgeRecent(m, c.now);
      !(c.peer in live && live[c.peer].fingerprint == c.fingerprint && live[c.peer].retryAfter > c.now)
    ensures Remembers(Remember(PurgeRecent(m, c.now), c), c.peer, log + [c], c.now)
    ensures Repeats(log + [c]) ==> c.now - log[|log| - 1].now >= Backoff(Streak(log))
  {
    var log' := log + [c];
    assert log'[..|log|] == log;
    assert Streak(log') == if Repeats(log') then Streak(log) + 1 else 0;
  }

  /** Purging and the passing of time lose no memory that still counts. */
  lemma PurgeRemembers(m: map<Ip, Recent>, p: Ip, log: seq<Call>, t: int, now: int)
    requires Remembers(m, p, log, t) && t <= now
    ensures Remembers(m, p, log, now) && Remembers(PurgeRecent(m, now), p, log, now)
  {
  }

  lemma OtherCallsLeaveMemory(cfg: Config, s: State, p: Ip, channel: Channel, c: Call, m: map<Ip, Recent>)
    requires !(Answer(cfg, s, c).Admitted? && c.peer == p && c.channel == channel)
    requires m == if cfg.rate == 0 then RecentOf(s, channel) else PurgeRecent(RecentOf(s, channel), c.now)
    ensures var next := RecentOf(Next(cfg, s, c), channel);
      (p in next <==> p in m) && (p in m ==> next[p] == m[p])
  {
  }

  lemma RemembersStep(cfg: Config, s: State, p: Ip, channel: Channel, log: seq<Call>, t: int, c: Call)
    requires Remembers(RecentOf(s, channel), p, log, t) && BacksOff(log) && t <= c.now
    ensures
      var counted := Answer(cfg, s, c).Admitted? && c.peer == p && c.channel == channel;
      var log' := log + if counted then [c] else [];
      Remembers(RecentOf(Next(cfg, s, c), channel), p, log', c.now) && BacksOff(log')
  {
    if Answer(cfg, s, c).Admitted? && c.peer == p && c.channel == channel {
      RememberAdmission(RecentOf(s, channel), log, t, c);
      BacksOffGrows(log, c);
    } else {
      assert log + [] == log;
      PurgeRemembers(RecentOf(s, channel), p, log, t, c.now);
      OtherCallsLeaveMemory(cfg, s, p, channel, c,
                            if cfg.rate == 0 then RecentOf(s, channel) else PurgeRecent(RecentOf(s, channel), c.now));
    }
  }

  lemma {:induction false} WorkLogBacksOff(cfg: Config, calls: seq<Call>, p: Ip, channel: Channel)
    requires Ordered(calls)
    ensures BacksOff(WorkLog(cfg, calls, p, channel))
    ensures calls != [] ==>
      Remembers(RecentOf(After(cfg, EMPTY, calls), channel), p, WorkLog(cfg, calls, p, channel), calls[|calls| - 1].now)
  {
    if calls != [] {
      var n := |calls| - 1;
      var front := calls[..n];
      WorkLogBacksOff(cfg, front, p, channel);
      var t := if front == [] then calls[n].now else front[n - 1].now;
      RemembersStep(cfg, After(cfg, EMPTY, front), p, channel, WorkLog(cfg, front, p, channel), t, calls[n]);
    }
  }

  /**
   * In every run, when a peer's admitted work repeats its previous admission on that channel within
   * the retention period, the two are at least 1, 2, 4, 8, 16, 30, 30, ... seconds apart, by the
   * length of the streak so far.
   */
  lemma RepeatedWorkBacksOff(cfg: Config, calls: seq<Call>, p: Ip, channel: Channel, j: nat)
    requires Ordered(calls) && 0 < j < |WorkLog(cfg, calls, p, channel)|
    requires Repeats(WorkLog(cfg, calls, p, channel)[..j + 1])
    ensures
      var log := WorkLog(cfg, calls, p, channel);
      log[j].now - log[j - 1].now >= Backoff(Streak(log[..j]))
  {
    WorkLogBacksOff(cfg, calls, p, channel);
    assert BacksOffAt(WorkLog(cfg, calls, p, channel), j);
  }
}
