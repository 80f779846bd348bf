/**
 * The per-node Hybrid Logical Clock: minting, observing a peer's stamp behind the drift clamp, and
 * observing a trusted (self-authored) stamp. Physical readings are arguments of each operation.
 */
module Clock {
  import opened Arithmetic
  import opened Lww

  const LOGICAL_MAX: nat := 0xFFFF_FFFF

  /** One tick: the counter advances, rolling physical time forward when it is saturated. */
  function NextTick(h: Hlc): (r: Hlc)
    ensures HlcLess(h, r)
  {
    if h.logical < LOGICAL_MAX then Hlc(h.physical, h.logical + 1) else Hlc(h.physical + 1, 0)
  }

  function MintReading(last: Hlc, pt: nat): (r: Hlc)
    ensures HlcLess(last, r) && pt <= r.physical
  {
    if pt > last.physical then Hlc(pt, 0) else NextTick(last)
  }

  function ClampedToDrift(remote: nat, pt: nat, drift: nat): nat {
    if remote <= pt + drift then remote else pt + drift
  }

  function Greater(a: Hlc, b: Hlc): Hlc {
    if HlcLess(a, b) then b else a
  }

  /** The least reading at or above the local reading, physical time and the admitted remote reading. */
  function AdvancePastRemote(last: Hlc, pt: nat, admitted: nat, logical: nat): Hlc {
    Greater(Greater(last, Hlc(pt, 0)), Hlc(admitted, logical))
  }

  function ObserveReading(last: Hlc, pt: nat, remote: Stamp, drift: nat): Hlc {
    AdvancePastRemote(last, pt, ClampedToDrift(remote.hlc.physical, pt, drift), remote.hlc.logical)
  }

  predicate WithinBudget(pt: nat, remote: Stamp, drift: nat) {
    remote.hlc.physical <= pt + drift
  }

  /** The clock catches up with a remote stamp exactly when it is within budget or already passed. */
  lemma ObserveCatchesUp(last: Hlc, pt: nat, remote: Stamp, drift: nat)
    ensures HlcAtMost(last, ObserveReading(last, pt, remote, drift))
    ensures HlcAtMost(remote.hlc, ObserveReading(last, pt, remote, drift))
            <==> WithinBudget(pt, remote, drift) || HlcAtMost(remote.hlc, last)
  {
  }

  /** Readings the clock can show: the logical counter has 32 bits. */
  ghost predicate Representable(h: Hlc) {
    h.logical <= LOGICAL_MAX
  }

  /** A minted reading is the least one past the last reading and not behind the physical clock. */
  lemma MintIsLeast(last: Hlc, pt: nat, h: Hlc)
    requires Representable(last) && Representable(h)
    ensures Representable(MintReading(last, pt))
    ensures HlcAtMost(MintReading(last, pt), h) <==> HlcLess(last, h) && HlcAtMost(Hlc(pt, 0), h)
  {
  }

  /**
   * An observation leads to the least reading not behind the last one, the physical clock and the remote
   * reading, whose physical part counts only up to the drift budget.
   */
  lemma ObserveIsLeast(last: Hlc, pt: nat, remote: Stamp, drift: nat, h: Hlc)
    ensures HlcAtMost(ObserveReading(last, pt, remote, drift), h)
       <==> HlcAtMost(last, h) && HlcAtMost(Hlc(pt, 0), h) && HlcAtMost(Hlc(Min(remote.hlc.physical, pt + drift), remote.hlc.logical), h)
  {
  }

  /** The node's clock object; the node id is attached only when a reading is minted. */
  class HlcClock {
    const nodeId: nat
    const maxClockDrift: nat
    var last: Hlc

    constructor (nodeId: nat, maxClockDrift: nat)
      ensures this.nodeId == nodeId && this.maxClockDrift == maxClockDrift && last == Hlc(0, 0)
    {
      this.nodeId := nodeId;
      this.maxClockDrift := maxClockDrift;
      last := Hlc(0, 0);
    }

    method Now(pt: nat) returns (stamp: Stamp)
      modifies this
      ensures last == Advance(old(last), Event.Mint(pt), maxClockDrift) && stamp == Stamp(last, nodeId)
      ensures HlcLess(old(last), stamp.hlc)
    {
      var next := if pt > last.physical then Hlc(pt, 0) else NextTick(last);
      last := next;
      stamp := Stamp(next, nodeId);
    }

    method Observe(pt: nat, remote: Stamp)
      modifies this
      ensures last == Advance(old(last), Event.Observe(pt, remote), maxClockDrift)
    {
      var admitted := ClampedToDrift(remote.hlc.physical, pt, maxClockDrift);
      last := AdvancePastRemote(last, pt, admitted, remote.hlc.logical);
    }

    method ObserveTrusted(pt: nat, remote: Stamp)
      modifies this
      ensures last == Advance(old(last), Event.ObserveTrusted(pt, remote), maxClockDrift)
    {
      last := AdvancePastRemote(last, pt, remote.hlc.physical, remote.hlc.logical);
    }
  }

  // ---- Whole runs of one clock ----

  datatype Event =
    | Mint(pt: nat)
    | Observe(pt: nat, remote: Stamp)
    | ObserveTrusted(pt: nat, remote: Stamp)

  function Advance(last: Hlc, e: Event, drift: nat): (r: Hlc)
    ensures HlcAtMost(last, r)
  {
    match e
    case Mint(pt) => MintReading(last, pt)
    case Observe(pt, remote) => ObserveReading(last, pt, remote, drift)
    case ObserveTrusted(pt, remote) => AdvancePastRemote(last, pt, remote.hlc.physical, remote.hlc.logical)
  }

  /** The clock's reading after a whole run of events; a mint returns the reading after it. */
  function Run(last: Hlc, events: seq<Event>, drift: nat): Hlc {
    if events == [] then last
    else Advance(Run(last, events[..|events| - 1], drift), events[|events| - 1], drift)
  }

  lemma {:induction false} RunIsMonotone(last: Hlc, events: seq<Event>, drift: nat, i: nat, j: nat)
    requires i <= j <= |events|
    ensures HlcAtMost(Run(last, events[..i], drift), Run(last, events[..j], drift))
  {
    if i < j {
      RunIsMonotone(last, events, drift, i, j - 1);
      assert events[..j][..j - 1] == events[..j - 1];
    }
  }

  lemma RunStep(last: Hlc, events: seq<Event>, drift: nat, i: nat)
    requires i < |events|
    ensures Run(last, events[..i + 1], drift) == Advance(Run(last, events[..i], drift), events[i], drift)
  {
    assert events[..i + 1][..i] == events[..i];
  }

  /** Minted readings strictly increase, whatever is observed between and however time jumps. */
  lemma MintsStrictlyIncrease(last: Hlc, events: seq<Event>, drift: nat, i: nat, j: nat)
    requires i < j < |events| && events[j].Mint?
    ensures HlcLess(Run(last, events[..i + 1], drift), Run(last, events[..j + 1], drift))
  {
    RunIsMonotone(last, events, drift, i + 1, j);
    RunStep(last, events, drift, j);
  }

  /** A mint outranks every earlier observed stamp that was trusted or within the drift budget. */
  lemma MintsOutrankObserved(last: Hlc, events: seq<Event>, drift: nat, i: nat, j: nat)
    requires i < j < |events| && events[j].Mint?
    requires events[i].ObserveTrusted? || (events[i].Observe? && WithinBudget(events[i].pt, events[i].remote, drift))
    ensures HlcLess(events[i].remote.hlc, Run(last, events[..j + 1], drift))
  {
    RunStep(last, events, drift, i);
    MintsStrictlyIncrease(last, events, drift, i, j);
  }

  function MintCount(events: seq<Event>): nat {
    if events == [] then 0
    else MintCount(events[..|events| - 1]) + if events[|events| - 1].Mint? then 1 else 0
  }

  /**
   * Untrusted stamps cannot ratchet the clock past the cap, however many are observed: once past it, every
   * reading gone through cost a mint of its own, a whole counter's worth for each further millisecond.
   */
  lemma {:induction false} UntrustedStampsStayUnderTheCap(last: Hlc, events: seq<Event>, drift: nat, bound: nat)
    requires last.physical <= bound + drift
    requires forall e :: e in events ==> e.pt <= bound && !e.ObserveTrusted?
    ensures var r, cap := Run(last, events, drift), bound + drift;
      r.physical > cap ==> (r.physical - cap - 1) * (LOGICAL_MAX + 1) + r.logical + 1 <= MintCount(events)
  {
    if events != [] {
      var front, e := events[..|events| - 1], events[|events| - 1];
      UntrustedStampsStayUnderTheCap(last, front, drift, bound);
      assert e in events;
    }
  }
}
