/**
 * The round-based recovery simulator: flights of data units over a lossy link, an optional XOR
 * parity opportunity after the first flight, and selective or whole retransmission until the
 * receiver holds everything. Loss is decided per (unit, attempt), whatever the policy.
 */
module FragmentRecovery {
  import opened Arithmetic
  import opened Options
  import opened FragmentGeometry

  datatype Policy = WholeRetry | MissingOnly | Xor8Plus1

  datatype Burst = Burst(start: nat, count: nat)

  type Positive = n: nat | n > 0 witness 1

  type Seconds = t: real | t >= 0.0

  /**
   * The loss draws, as functions that answer whether a datagram is lost: data by unit and attempt,
   * parity by group. `controlRetries` gives, for each control exchange in turn, how many of its
   * transmissions are lost before one gets through. The rate is in bits per second.
   */
  datatype Link = Link(data: (nat, nat) -> bool, parity: nat -> bool, controlRetries: nat -> nat, burst: Option<Burst>,
                       rtt: Seconds, bandwidth: Positive)

  datatype Setup = Setup(units: seq<DataUnit>, auth: nat, link: Link)

  datatype Receiver = Receiver(received: seq<bool>, remaining: int, retained: nat, peak: nat)

  datatype Cost = Cost(wire: nat, retransmitted: nat, parity: nat, control: nat, datagrams: nat)

  datatype Report = Report(initialLoss: nat, stillMissing: nat, recoveredUnits: nat, recoveredUseful: nat)

  /** When the sender next puts something on the wire, and when the receiver had everything. */
  datatype Timing = Timing(cursor: Seconds, done: Option<Seconds>)

  datatype Transfer = Transfer(receiver: Receiver, attempts: seq<nat>, cost: Cost, report: Report, controls: nat, timing: Timing)

  predicate InBurst(link: Link, ordinal: nat) {
    link.burst.Some? && link.burst.value.start <= ordinal < link.burst.value.start + link.burst.value.count
  }

  function Ordinal(policy: Policy, unit: nat): nat {
    if policy.Xor8Plus1? then DataOrdinal(unit) else unit
  }

  predicate DataLost(link: Link, policy: Policy, unit: nat, attempt: nat) {
    (attempt == 1 && InBurst(link, Ordinal(policy, unit))) || link.data(unit, attempt)
  }

  predicate ParityLost(s: Setup, group: nat)
    requires group < GroupCount(|s.units|)
  {
    InBurst(s.link, ParityOrdinal(|s.units|, group)) || s.link.parity(group)
  }

  predicate Shaped(s: Setup, t: Transfer) {
    |t.receiver.received| == |t.attempts| == |s.units|
  }

  function Serialization(link: Link, bytes: nat): Seconds {
    bytes as real * 8.0 / link.bandwidth as real
  }

  function OneWay(link: Link): Seconds {
    link.rtt / 2.0
  }

  /** The moment the last missing unit arrived, noted once the receiver misses nothing. */
  function Noted(timing: Timing, rx: Receiver, arrival: Seconds): Timing {
    if rx.remaining == 0 then timing.(done := Some(arrival)) else timing
  }

  /** A receiver that misses nothing knows when it got there. */
  predicate Dated(t: Transfer) {
    t.receiver.remaining == 0 ==> t.timing.done.Some?
  }

  function MissingUsefulUpTo(units: seq<DataUnit>, received: seq<bool>, k: nat): nat
    requires k <= |units| == |received|
  {
    if k == 0 then 0
    else MissingUsefulUpTo(units, received, k - 1) + if received[k - 1] then 0 else units[k - 1].usefulLen
  }

  function MissingUseful(units: seq<DataUnit>, received: seq<bool>): nat
    requires |units| == |received|
  {
    MissingUsefulUpTo(units, received, |units|)
  }

  // ---- Flights ----

  function Take(rx: Receiver, i: nat, useful: nat): Receiver
    requires i < |rx.received|
  {
    rx.(received := rx.received[i := true], remaining := rx.remaining - 1, retained := rx.retained + useful)
  }

  /** While the payload is incomplete, what is retained counts towards the peak. */
  function Peaked(rx: Receiver): Receiver {
    if rx.remaining == 0 then rx else rx.(peak := Max(rx.peak, rx.retained))
  }

  function Charge(cost: Cost, round: nat, wire: nat): Cost {
    cost.(wire := cost.wire + wire,
          datagrams := cost.datagrams + 1,
          retransmitted := cost.retransmitted + if round > 0 then wire else 0)
  }

  function Send(s: Setup, policy: Policy, round: nat, t: Transfer, i: nat): (r: Transfer)
    requires Shaped(s, t) && i < |s.units|
    ensures Dated(t) ==> Dated(r)
  {
    var attempt := t.attempts[i] + 1;
    var kept := DataLost(s.link, policy, i, attempt) || t.receiver.received[i];
    var receiver := if kept then t.receiver else Peaked(Take(t.receiver, i, s.units[i].usefulLen));
    var sent := t.timing.(cursor := t.timing.cursor + Serialization(s.link, s.units[i].wireLen));
    t.(receiver := receiver,
       attempts := t.attempts[i := attempt],
       cost := Charge(t.cost, round, s.units[i].wireLen),
       timing := if kept then sent else Noted(sent, receiver, sent.cursor + OneWay(s.link)))
  }

  /** Whole retry flies everything, the others what was missing when the round started. */
  predicate Carries(policy: Policy, received: seq<bool>, i: nat)
    requires i < |received|
  {
    policy.WholeRetry? || !received[i]
  }

  /** The part of a flight that concerns the first `k` units. */
  function Fly(s: Setup, policy: Policy, round: nat, t: Transfer, k: nat): (r: Transfer)
    requires Shaped(s, t) && k <= |s.units|
    ensures Shaped(s, r) && (Dated(t) ==> Dated(r))
  {
    if k == 0 then t
    else
      var before := Fly(s, policy, round, t, k - 1);
      if Carries(policy, t.receiver.received, k - 1) then Send(s, policy, round, before, k - 1) else before
  }

  // ---- The parity opportunity ----

  function MissingBetween(received: seq<bool>, first: nat, count: nat): (r: seq<nat>)
    requires first + count <= |received|
    ensures forall k :: 0 <= k < |r| ==> r[k] < first + count && !received[r[k]]
  {
    if count == 0 then []
    else if received[first + count - 1] then MissingBetween(received, first, count - 1)
    else MissingBetween(received, first, count - 1) + [first + count - 1]
  }

  function MissingIn(units: nat, received: seq<bool>, group: nat): seq<nat>
    requires group < GroupCount(units) && |received| == units
  {
    MissingBetween(received, group * FEC_DATA_PER_GROUP, GroupSize(units, group))
  }

  function LongestUseful(units: seq<DataUnit>, first: nat, count: nat): nat
    requires first + count <= |units|
  {
    if count == 0 then 0 else Max(LongestUseful(units, first, count - 1), units[first + count - 1].usefulLen)
  }

  function ParityPayload(s: Setup, group: nat): nat
    requires group < GroupCount(|s.units|)
  {
    LongestUseful(s.units, group * FEC_DATA_PER_GROUP, GroupSize(|s.units|, group))
  }

  function ParityWire(s: Setup, group: nat): nat
    requires group < GroupCount(|s.units|)
  {
    s.auth + PARITY_HEADER_LEN + ParityPayload(s, group)
  }

  /** Parity sent for the first `k` groups: its cost, and the payload the receiver has to hold on to. */
  datatype Tally = Tally(wire: nat, held: nat, scratch: nat)

  function ParityTally(s: Setup, received: seq<bool>, k: nat): Tally
    requires |received| == |s.units| && k <= GroupCount(|s.units|)
  {
    if k == 0 then Tally(0, 0, 0)
    else
      var before, group := ParityTally(s, received, k - 1), k - 1;
      var sent := before.(wire := before.wire + ParityWire(s, group));
      var missing := |MissingIn(|s.units|, received, group)|;
      if ParityLost(s, group) || missing == 0 then sent
      else if missing > 1 then sent.(held := sent.held + ParityPayload(s, group))
      else sent.(scratch := Max(sent.scratch, ParityPayload(s, group)))
  }

  /** The unit a group gets back: it misses exactly that one, and its parity arrived. */
  function Lone(s: Setup, received: seq<bool>, group: nat): (r: Option<nat>)
    requires |received| == |s.units| && group < GroupCount(|s.units|)
    ensures r.Some? ==> r.value < |s.units| && !received[r.value]
  {
    var missing := MissingIn(|s.units|, received, group);
    if |missing| == 1 && !ParityLost(s, group) then Some(missing[0]) else None
  }

  function Restore(s: Setup, t: Transfer, lone: Option<nat>, arrival: Seconds): (r: Transfer)
    requires Shaped(s, t) && (lone.Some? ==> lone.value < |s.units|)
    ensures Dated(t) ==> Dated(r)
  {
    if lone.None? then t
    else
      var useful := s.units[lone.value].usefulLen;
      var receiver := Take(t.receiver, lone.value, useful);
      t.(receiver := receiver,
         report := t.report.(recoveredUnits := t.report.recoveredUnits + 1,
                             recoveredUseful := t.report.recoveredUseful + useful),
         timing := Noted(t.timing, receiver, arrival))
  }

  /** When the parity of the first `k` groups, sent from `start` on, has left. */
  function ParityCursor(s: Setup, start: Seconds, k: nat): Seconds
    requires k <= GroupCount(|s.units|)
  {
    if k == 0 then start else ParityCursor(s, start, k - 1) + Serialization(s.link, ParityWire(s, k - 1))
  }

  /** The data cursor is where the parity of the first group starts. */
  function RecoverGroups(s: Setup, t: Transfer, k: nat): (r: Transfer)
    requires Shaped(s, t) && k <= GroupCount(|s.units|)
    ensures Shaped(s, r) && (Dated(t) ==> Dated(r))
  {
    if k == 0 then t
    else
      var before := RecoverGroups(s, t, k - 1);
      Restore(s, before, Lone(s, before.receiver.received, k - 1), ParityCursor(s, t.timing.cursor, k) + OneWay(s.link))
  }

  function HoldParity(s: Setup, t: Transfer, tally: Tally): Transfer
    requires Shaped(s, t)
  {
    var rx := t.receiver;
    t.(receiver := if rx.remaining > 0 then rx.(peak := Max(rx.peak, rx.retained + tally.held + tally.scratch)) else rx,
       cost := t.cost.(wire := t.cost.wire + tally.wire,
                       parity := t.cost.parity + tally.wire,
                       datagrams := t.cost.datagrams + GroupCount(|s.units|)))
  }

  function AfterParity(s: Setup, t: Transfer, start: Seconds): Transfer {
    t.(timing := t.timing.(cursor := ParityCursor(s, start, GroupCount(|s.units|))))
  }

  function UseParity(s: Setup, t: Transfer, tally: Tally): Transfer
    requires Shaped(s, t)
  {
    var held := HoldParity(s, t, tally);
    if t.receiver.remaining > 0 then
      var recovered := RecoverGroups(s, held, GroupCount(|s.units|));
      var kept := recovered.(receiver := if recovered.receiver.remaining > 0 then Peaked(recovered.receiver) else recovered.receiver);
      AfterParity(s, kept, t.timing.cursor)
    else AfterParity(s, held, t.timing.cursor)
  }

  function ParityPhase(s: Setup, t: Transfer): Transfer
    requires Shaped(s, t)
  {
    UseParity(s, t, ParityTally(s, t.receiver.received, GroupCount(|s.units|)))
  }

  // ---- Rounds ----

  function NackLen(s: Setup): nat {
    s.auth + 1 + 32 + 4 + CeilDiv(|s.units|, 8)
  }

  function AckLen(s: Setup): nat {
    s.auth + 1 + 32
  }

  /** One control exchange from `at` on, repeated a round trip later until a transmission gets through. */
  function DeliverControl(s: Setup, t: Transfer, wire: nat, at: Seconds): Transfer {
    var retries := s.link.controlRetries(t.controls);
    var tries := 1 + retries;
    t.(controls := t.controls + 1,
       cost := t.cost.(wire := t.cost.wire + tries * wire,
                       control := t.cost.control + tries * wire,
                       datagrams := t.cost.datagrams + tries),
       timing := t.timing.(cursor := at + retries as real * s.link.rtt + Serialization(s.link, wire) + OneWay(s.link)))
  }

  function FirstFlight(s: Setup, policy: Policy, t: Transfer): Transfer
    requires Shaped(s, t)
  {
    var lost := t.(report := t.report.(initialLoss := MissingUseful(s.units, t.receiver.received)));
    var recovered := if policy.Xor8Plus1? then ParityPhase(s, lost) else lost;
    recovered.(report := recovered.report.(stillMissing := MissingUseful(s.units, recovered.receiver.received)))
  }

  function Flight(s: Setup, policy: Policy, round: nat, t: Transfer): Transfer
    requires Shaped(s, t)
  {
    var sent := Fly(s, policy, round, t, |s.units|);
    if round == 0 then FirstFlight(s, policy, sent) else sent
  }

  /** An incomplete round hands over to the next: at a guess after a round trip, or on a report. */
  function HandOver(s: Setup, policy: Policy, t: Transfer): Transfer {
    if policy.WholeRetry? then t.(timing := t.timing.(cursor := t.timing.cursor + s.link.rtt))
    else DeliverControl(s, t, NackLen(s), t.timing.cursor + OneWay(s.link))
  }

  function Round(s: Setup, policy: Policy, round: nat, t: Transfer): (r: Transfer)
    requires Shaped(s, t)
    ensures Dated(t) ==> Dated(r)
  {
    var flown := Flight(s, policy, round, t);
    if flown.receiver.remaining == 0 then flown else HandOver(s, policy, flown)
  }

  function Start(s: Setup): (r: Transfer)
    ensures Shaped(s, r) && (s.units != [] ==> Dated(r))
  {
    Transfer(Receiver(seq(|s.units|, i => false), |s.units|, 0, 0), seq(|s.units|, i => 0),
             Cost(0, 0, 0, 0, 0), Report(0, 0, 0, 0), 0, Timing(0.0, None))
  }

  predicate Complete(t: Transfer) {
    t.receiver.remaining == 0
  }

  function Advance(s: Setup, policy: Policy, round: nat, t: Transfer): Transfer
    requires Shaped(s, t)
  {
    if Complete(t) then t else Round(s, policy, round, t)
  }

  /** The transfer after `rounds` rounds, or after the round that completed it if that came first. */
  function After(s: Setup, policy: Policy, rounds: nat): (r: Transfer)
    ensures Shaped(s, r) && (s.units != [] ==> Dated(r))
  {
    if rounds == 0 then Start(s) else Advance(s, policy, rounds - 1, After(s, policy, rounds - 1))
  }

  /** Selective policies close with an acknowledgement, sent once the receiver has everything. */
  function Acknowledged(s: Setup, policy: Policy, t: Transfer): Transfer
    requires t.timing.done.Some?
  {
    if policy.WholeRetry? then t else DeliverControl(s, t, AckLen(s), t.timing.done.value)
  }

  /** When the sender of the completed transfer `t` has nothing left to send or to wait for. */
  function Quiescence(s: Setup, policy: Policy, t: Transfer): Seconds
    requires t.timing.done.Some?
  {
    if policy.WholeRetry? then MaxReal(t.timing.done.value, t.timing.cursor)
    else MaxReal(Acknowledged(s, policy, t).timing.cursor, t.timing.cursor)
  }

  function ParityWireUpTo(s: Setup, k: nat): nat
    requires k <= GroupCount(|s.units|)
  {
    if k == 0 then 0 else ParityWireUpTo(s, k - 1) + ParityWire(s, k - 1)
  }

  function DataWire(units: seq<DataUnit>, k: nat): nat
    requires k <= |units|
  {
    if k == 0 then 0 else DataWire(units, k - 1) + units[k - 1].wireLen
  }

  /** What the sender keeps for recovery: nothing, its data frames, or those and the parity frames. */
  function SenderState(s: Setup, policy: Policy): nat {
    match policy
    case WholeRetry => 0
    case MissingOnly => DataWire(s.units, |s.units|)
    case Xor8Plus1 => DataWire(s.units, |s.units|) + ParityWireUpTo(s, GroupCount(|s.units|))
  }

  /** The rounds are the incomplete flights before the completing one. */
  datatype Outcome = Outcome(rounds: nat, completion: Seconds, quiescence: Seconds, senderState: nat)

  // ---- The loops ----

  /** One data datagram on its way: counted whether or not it is lost, taken at most once. */
  method Transmit(s: Setup, policy: Policy, round: nat, t: Transfer, i: nat) returns (r: Transfer)
    requires Shaped(s, t) && i < |s.units|
    ensures r == Send(s, policy, round, t, i)
  {
    var wire := s.units[i].wireLen;
    r := t.(attempts := t.attempts[i := t.attempts[i] + 1],
            cost := t.cost.(wire := t.cost.wire + wire, datagrams := t.cost.datagrams + 1));
    if round > 0 {
      r := r.(cost := r.cost.(retransmitted := r.cost.retransmitted + wire));
    }
    r := r.(timing := r.timing.(cursor := r.timing.cursor + Serialization(s.link, wire)));
    if DataLost(s.link, policy, i, r.attempts[i]) || r.receiver.received[i] {
      return;
    }
    var rx := r.receiver;
    rx := rx.(received := rx.received[i := true], remaining := rx.remaining - 1, retained := rx.retained + s.units[i].usefulLen);
    if rx.remaining == 0 {
      r := r.(timing := r.timing.(done := Some(r.timing.cursor + OneWay(s.link))));
    } else {
      rx := rx.(peak := Max(rx.peak, rx.retained));
    }
    r := r.(receiver := rx);
  }

  method SendFlight(s: Setup, policy: Policy, round: nat, t: Transfer) returns (r: Transfer)
    requires Shaped(s, t)
    ensures r == Fly(s, policy, round, t, |s.units|)
  {
    r := t;
    for i := 0 to |s.units|
      invariant r == Fly(s, policy, round, t, i)
    {
      if Carries(policy, t.receiver.received, i) {
        r := Transmit(s, policy, round, r, i);
      }
    }
  }

  /** The parity datagrams: their wire cost, the payload kept for later, the scratch a recovery needs, when they have left. */
  method SendParity(s: Setup, received: seq<bool>, start: Seconds) returns (wire: nat, held: nat, scratch: nat, cursor: Seconds)
    requires |received| == |s.units|
    ensures Tally(wire, held, scratch) == ParityTally(s, received, GroupCount(|s.units|))
    ensures cursor == ParityCursor(s, start, GroupCount(|s.units|))
  {
    wire, held, scratch, cursor := 0, 0, 0, start;
    for group := 0 to GroupCount(|s.units|)
      invariant Tally(wire, held, scratch) == ParityTally(s, received, group)
      invariant cursor == ParityCursor(s, start, group)
    {
      wire := wire + ParityWire(s, group);
      cursor := cursor + Serialization(s.link, ParityWire(s, group));
      if !ParityLost(s, group) {
        var missing := |MissingIn(|s.units|, received, group)|;
        if missing > 1 {
          held := held + ParityPayload(s, group);
        } else if missing == 1 {
          scratch := Max(scratch, ParityPayload(s, group));
        }
      }
    }
  }

  method TryGroup(s: Setup, t: Transfer, group: nat, arrival: Seconds) returns (r: Transfer)
    requires Shaped(s, t) && group < GroupCount(|s.units|)
    ensures r == Restore(s, t, Lone(s, t.receiver.received, group), arrival)
  {
    r := t;
    var missing := MissingIn(|s.units|, t.receiver.received, group);
    if |missing| == 1 && !ParityLost(s, group) {
      var i := missing[0];
      var useful := s.units[i].usefulLen;
      r := r.(receiver := Take(r.receiver, i, useful),
              report := r.report.(recoveredUnits := r.report.recoveredUnits + 1,
                                  recoveredUseful := r.report.recoveredUseful + useful));
      if r.receiver.remaining == 0 {
        r := r.(timing := r.timing.(done := Some(arrival)));
      }
    }
  }

  method ApplyParityRecovery(s: Setup, t: Transfer) returns (r: Transfer)
    requires Shaped(s, t)
    ensures r == RecoverGroups(s, t, GroupCount(|s.units|))
  {
    r := t;
    for group := 0 to GroupCount(|s.units|)
      invariant r == RecoverGroups(s, t, group)
    {
      r := TryGroup(s, r, group, ParityCursor(s, t.timing.cursor, group + 1) + OneWay(s.link));
    }
  }

  method RunParity(s: Setup, t: Transfer) returns (r: Transfer)
    requires Shaped(s, t)
    ensures r == ParityPhase(s, t)
  {
    var wire, held, scratch, cursor := SendParity(s, t.receiver.received, t.timing.cursor);
    r := HoldParity(s, t, Tally(wire, held, scratch));
    if t.receiver.remaining > 0 {
      r := ApplyParityRecovery(s, r);
      if r.receiver.remaining > 0 {
        r := r.(receiver := r.receiver.(peak := Max(r.receiver.peak, r.receiver.retained)));
      }
    }
    r := r.(timing := r.timing.(cursor := cursor));
  }

  method RunFlight(s: Setup, policy: Policy, round: nat, t: Transfer) returns (r: Transfer)
    requires Shaped(s, t)
    ensures r == Flight(s, policy, round, t)
  {
    r := SendFlight(s, policy, round, t);
    if round == 0 {
      r := r.(report := r.report.(initialLoss := MissingUseful(s.units, r.receiver.received)));
      if policy.Xor8Plus1? {
        r := RunParity(s, r);
      }
      r := r.(report := r.report.(stillMissing := MissingUseful(s.units, r.receiver.received)));
    }
  }

  method RunRound(s: Setup, policy: Policy, round: nat, t: Transfer) returns (r: Transfer)
    requires Shaped(s, t)
    ensures r == Round(s, policy, round, t)
  {
    r := RunFlight(s, policy, round, t);
    if r.receiver.remaining != 0 {
      if policy.WholeRetry? {
        r := r.(timing := r.timing.(cursor := r.timing.cursor + s.link.rtt));
      } else {
        r := DeliverControl(s, r, NackLen(s), r.timing.cursor + OneWay(s.link));
      }
    }
  }

  /**
   * The whole transfer within `bound` rounds (10 000 in the source), or `None` when the bound is
   * exhausted, where the source panics.
   */
  method Simulate(s: Setup, policy: Policy, bound: nat) returns (t: Transfer, outcome: Option<Outcome>)
    requires s.units != []
    ensures outcome.None? ==> t == After(s, policy, bound) && !Complete(t)
    ensures outcome.Some? ==>
      var rounds := outcome.value.rounds;
      var last := After(s, policy, rounds + 1);
      && rounds < bound && !Complete(After(s, policy, rounds)) && Complete(last)
      && t == Acknowledged(s, policy, last)
      && outcome.value == Outcome(rounds, last.timing.done.value, Quiescence(s, policy, last), SenderState(s, policy))
  {
    t := Start(s);
    for round := 0 to bound
      invariant t == After(s, policy, round) && !Complete(t)
    {
      t := RunRound(s, policy, round, t);
      if Complete(t) {
        var completion, finalSend := t.timing.done.value, t.timing.cursor;
        var quiescence := completion;
        if !policy.WholeRetry? {
          t := DeliverControl(s, t, AckLen(s), completion);
          quiescence := t.timing.cursor;
        }
        return t, Some(Outcome(round, completion, MaxReal(quiescence, finalSend), SenderState(s, policy)));
      }
    }
    outcome := None;
  }
}
