/**
 * Admission of dataset-scale bulk work: a GCRA limiter per peer and one for all peers, plus an
 * exponential retry delay for repeated comparisons, with lazy purging of expired bookkeeping.
 * Instants and durations are integer nanoseconds.
 */
module Admission {
  import opened Arithmetic
  import opened Options

  type Ip = nat

  type Fingerprint = nat

  const SECOND: nat := 1_000_000_000

  const PER_PEER_BULK_BURST: nat := 3

  const PER_PEER_REFILL_INTERVAL: nat := SECOND

  const RETRY_MIN: nat := SECOND

  const RETRY_MAX: nat := 30 * SECOND

  const RETENTION: nat := 60 * SECOND

  const U32_MAX: nat := 0xFFFF_FFFF

  datatype Channel = DatedDump | ValueOnlyDump

  datatype Verdict = Admitted | RepeatedWork | PeerRate | GlobalRate

  datatype Recent = Recent(fingerprint: Fingerprint, retryAfter: int, retryDelay: nat, forgetAfter: int)

  datatype Call = Call(peer: Ip, channel: Channel, fingerprint: Fingerprint, now: int)

  datatype Config = Config(rate: nat, interval: nat, burst: nat)

  datatype State = State(
    peers: map<Ip, int>,
    globalTat: Option<int>,
    recentDated: map<Ip, Recent>,
    recentValue: map<Ip, Recent>)

  const EMPTY := State(map[], None, map[], map[])

  /** The interval is one second divided by the rate, to the nearest nanosecond. */
  function NewConfig(rate: nat): (r: Config)
    ensures rate == 0 ==> r.interval == SECOND && r.burst == 0
    ensures rate > 0 ==> 2 * rate * r.interval <= 2 * SECOND + rate < 2 * rate * r.interval + 2 * rate
    ensures rate > 0 ==> (r.interval > 0 <==> rate <= 2 * SECOND)
    ensures rate > 0 ==> PER_PEER_BULK_BURST <= r.burst <= U32_MAX && r.burst <= rate * PER_PEER_BULK_BURST
    ensures r.burst < rate * PER_PEER_BULK_BURST ==> r.burst == U32_MAX
  {
    var interval := if rate == 0 then SECOND else (2 * SECOND + rate) / (2 * rate);
    var burst := if rate * PER_PEER_BULK_BURST <= U32_MAX then rate * PER_PEER_BULK_BURST else U32_MAX;
    Config(rate, interval, burst)
  }

  // ---- One call ----

  function PurgeRecent(m: map<Ip, Recent>, now: int): map<Ip, Recent> {
    map p | p in m && m[p].forgetAfter > now :: m[p]
  }

  function Purge(s: State, now: int): State {
    State(map p | p in s.peers && s.peers[p] > now :: s.peers[p],
          if s.globalTat.Some? && s.globalTat.value <= now then None else s.globalTat,
          PurgeRecent(s.recentDated, now),
          PurgeRecent(s.recentValue, now))
  }

  function RecentOf(s: State, channel: Channel): map<Ip, Recent> {
    if channel.DatedDump? then s.recentDated else s.recentValue
  }

  predicate GcraAllows(tat: int, now: int, interval: nat, burst: nat) {
    tat <= now + interval * (if burst == 0 then 0 else burst - 1)
  }

  function PeerTat(s: State, c: Call): int {
    if c.peer in s.peers then s.peers[c.peer] else c.now
  }

  function GlobalTat(s: State, c: Call): int {
    if s.globalTat.Some? then s.globalTat.value else c.now
  }

  /** The decision on a purged state. */
  function Decide(cfg: Config, s: State, c: Call): Verdict {
    var recent := RecentOf(s, c.channel);
    if c.peer in recent && recent[c.peer].fingerprint == c.fingerprint && recent[c.peer].retryAfter > c.now then RepeatedWork
    else if !GcraAllows(PeerTat(s, c), c.now, PER_PEER_REFILL_INTERVAL, PER_PEER_BULK_BURST) then PeerRate
    else if !GcraAllows(GlobalTat(s, c), c.now, cfg.interval, cfg.burst) then GlobalRate
    else Admitted
  }

  function RetryDelay(recent: map<Ip, Recent>, c: Call): nat {
    if c.peer in recent && recent[c.peer].fingerprint == c.fingerprint
    then Min(2 * recent[c.peer].retryDelay, RETRY_MAX)
    else RETRY_MIN
  }

  function Remember(recent: map<Ip, Recent>, c: Call): map<Ip, Recent> {
    var delay := RetryDelay(recent, c);
    recent[c.peer := Recent(c.fingerprint, c.now + delay, delay, c.now + RETENTION)]
  }

  /** The bookkeeping of an admission, on a purged state. */
  function Charge(cfg: Config, s: State, c: Call): State {
    State(s.peers[c.peer := Max(PeerTat(s, c), c.now) + PER_PEER_REFILL_INTERVAL],
          Some(Max(GlobalTat(s, c), c.now) + cfg.interval),
          if c.channel.DatedDump? then Remember(s.recentDated, c) else s.recentDated,
          if c.channel.DatedDump? then s.recentValue else Remember(s.recentValue, c))
  }

  function Answer(cfg: Config, s: State, c: Call): Verdict {
    if cfg.rate == 0 then GlobalRate else Decide(cfg, Purge(s, c.now), c)
  }

  function Next(cfg: Config, s: State, c: Call): State {
    if cfg.rate == 0 then s
    else
      var p := Purge(s, c.now);
      if Decide(cfg, p, c).Admitted? then Charge(cfg, p, c) else p
  }

  class BulkAdmission {
    const config: Config
    var peers: map<Ip, int>
    var globalTat: Option<int>
    var recentDated: map<Ip, Recent>
    var recentValue: map<Ip, Recent>

    ghost function View(): State
      reads this
    {
      State(peers, globalTat, recentDated, recentValue)
    }

    constructor (globalRate: nat)
      ensures config == NewConfig(globalRate) && View() == EMPTY
    {
      config := NewConfig(globalRate);
      peers, globalTat, recentDated, recentValue := map[], None, map[], map[];
    }

    /** Drop paid-up limiter state and forgotten work. */
    method PurgeExpired(now: int)
      modifies this
      ensures View() == Purge(old(View()), now)
    {
      peers := map p | p in peers && peers[p] > now :: peers[p];
      recentDated := map p | p in recentDated && recentDated[p].forgetAfter > now :: recentDated[p];
      recentValue := map p | p in recentValue && recentValue[p].forgetAfter > now :: recentValue[p];
      if globalTat.Some? && globalTat.value <= now {
        globalTat := None;
      }
    }

    method TryAdmitAt(c: Call) returns (verdict: Verdict)
      modifies this
      ensures verdict == Answer(config, old(View()), c)
      ensures View() == Next(config, old(View()), c)
    {
      if config.rate == 0 {
        return GlobalRate;
      }
      PurgeExpired(c.now);
      var recent := if c.channel.DatedDump? then recentDated else recentValue;
      if c.peer in recent && recent[c.peer].fingerprint == c.fingerprint && recent[c.peer].retryAfter > c.now {
        return RepeatedWork;
      }
      var peerTat := if c.peer in peers then peers[c.peer] else c.now;
      if !GcraAllows(peerTat, c.now, PER_PEER_REFILL_INTERVAL, PER_PEER_BULK_BURST) {
        return PeerRate;
      }
      var tat := if globalTat.Some? then globalTat.value else c.now;
      if !GcraAllows(tat, c.now, config.interval, config.burst) {
        return GlobalRate;
      }
      RecordAdmission(c, peerTat, tat);
      return Admitted;
    }

    /** Charge both limiters and remember the work, doubling the retry delay of a repetition. */
    method RecordAdmission(c: Call, peerTat: int, tat: int)
      requires peerTat == PeerTat(View(), c) && tat == GlobalTat(View(), c)
      modifies this
      ensures View() == Charge(config, old(View()), c)
    {
      var recent := if c.channel.DatedDump? then recentDated else recentValue;
      peers := peers[c.peer := Max(peerTat, c.now) + PER_PEER_REFILL_INTERVAL];
      globalTat := Some(Max(tat, c.now) + config.interval);
      var delay := RETRY_MIN;
      if c.peer in recent && recent[c.peer].fingerprint == c.fingerprint {
        delay := Min(2 * recent[c.peer].retryDelay, RETRY_MAX);
      }
      recent := recent[c.peer := Recent(c.fingerprint, c.now + delay, delay, c.now + RETENTION)];
      if c.channel.DatedDump? {
        recentDated := recent;
      } else {
        recentValue := recent;
      }
    }
  }

  // ---- Runs ----

  ghost predicate Ordered(calls: seq<Call>) {
    forall i, j :: 0 <= i < j < |calls| ==> calls[i].now <= calls[j].now
  }

  function After(cfg: Config, s: State, calls: seq<Call>): State {
    if calls == [] then s
    else Next(cfg, After(cfg, s, calls[..|calls| - 1]), calls[|calls| - 1])
  }
}
