/**
 * The wire bill of a run, data and control. It is settled by the loss draws alone: round-trip time,
 * bandwidth, reordering and release times move packets around, but never add or save one.
 */
module StreamCost {
  import opened Arithmetic
  import opened Options
  import opened Runs
  import opened StreamModel
  import opened StreamQueue
  import opened StreamInvariant
  import opened StreamSteps
  import opened StreamSums
  import opened StreamRun

  /** What `n` packets of `len` bytes put on the wire. */
  ghost function Packets(len: nat, n: nat): nat {
    if n == 0 then 0 else Packets(len, n - 1) + len
  }

  lemma {:induction false} PacketsMultiply(len: nat, n: nat)
    ensures Packets(len, n) == len * n
  {
    if n > 0 {
      PacketsMultiply(len, n - 1);
    }
  }

  ghost function Bytes(env: Env, air: Air): Unit -> int {
    u => if HasUnit(env.messages, u) then Packets(WireLen(env, u), Tries(air, u)) else 0
  }

  ghost function RepeatBytes(env: Env, air: Air): Unit -> int {
    u => if HasUnit(env.messages, u) && Tries(air, u) > 0 then Packets(WireLen(env, u), Tries(air, u) - 1) else 0
  }

  /** Wire bytes that are neither control nor attempts of chunks. */
  ghost function Unexplained(env: Env, s: State): int {
    s.cost.wire - s.cost.control - Sum(env.messages, Bytes(env, s.air), |env.messages|)
  }

  /** Retransmitted bytes that are not attempts past a chunk's first. */
  ghost function UnexplainedRepeats(env: Env, s: State): int {
    s.cost.retransmitted - Sum(env.messages, RepeatBytes(env, s.air), |env.messages|)
  }

  /** What one missing-chunk report of a message costs, lost copies included. */
  ghost function NackBytes(env: Env, m: nat): nat
    requires m < |env.messages|
  {
    NackAttempts(env, m) * NackLen(env, Chunks(env, m))
  }

  /** What the reports of the first `k` messages cost. */
  ghost function ReportBytes(env: Env, reports: seq<nat>, k: nat): nat
    requires k <= |env.messages| == |reports|
  {
    if k == 0 then 0 else ReportBytes(env, reports, k - 1) + Packets(NackBytes(env, k - 1), reports[k - 1])
  }

  /** Control bytes that are not reports. */
  ghost function UnexplainedControl(env: Env, s: State): int
    requires Shaped(env, s)
  {
    s.cost.control - ReportBytes(env, s.queue.reports, |env.messages|)
  }

  ghost function Attempts(air: Air): Unit -> int {
    u => Tries(air, u)
  }

  /** How many packets the reports of the first `k` messages took. */
  ghost function ReportPackets(env: Env, reports: seq<nat>, k: nat): nat
    requires k <= |env.messages| == |reports|
  {
    if k == 0 then 0 else ReportPackets(env, reports, k - 1) + Packets(NackAttempts(env, k - 1), reports[k - 1])
  }

  /** Packets that are neither attempts of chunks nor reports. */
  ghost function UnexplainedPackets(env: Env, s: State): int
    requires Shaped(env, s)
  {
    s.cost.packets - Sum(env.messages, Attempts(s.air), |env.messages|) - ReportPackets(env, s.queue.reports, |env.messages|)
  }

  ghost predicate SameBalance(env: Env, s: State, t: State)
    requires Shaped(env, s)
  {
    && Shaped(env, t) && Unexplained(env, s) == Unexplained(env, t) && UnexplainedRepeats(env, s) == UnexplainedRepeats(env, t)
    && UnexplainedControl(env, s) == UnexplainedControl(env, t) && UnexplainedPackets(env, s) == UnexplainedPackets(env, t)
  }

  lemma {:induction false} ReportBytesChange(env: Env, reports: seq<nat>, m: nat, k: nat)
    requires k <= |env.messages| == |reports| && m < |reports|
    ensures ReportBytes(env, reports[m := reports[m] + 1], k) == ReportBytes(env, reports, k) + if m < k then NackBytes(env, m) else 0
    ensures ReportPackets(env, reports[m := reports[m] + 1], k) == ReportPackets(env, reports, k) + if m < k then NackAttempts(env, m) else 0
  {
    if k > 0 {
      ReportBytesChange(env, reports, m, k - 1);
    }
  }

  /** Whatever is queued was sent before. */
  ghost predicate QueuedWereSent(s: State) {
    forall i :: 0 <= i < |s.queue.tasks| ==> Tries(s.air, s.queue.tasks[i].unit) > 0
  }

  lemma BytesChange(env: Env, before: Air, after: Air, u: Unit)
    requires HasUnit(env.messages, u) && forall v :: Tries(after, v) == Tries(before, v) + if v == u then 1 else 0
    ensures Sum(env.messages, Bytes(env, after), |env.messages|)
         == Sum(env.messages, Bytes(env, before), |env.messages|) + WireLen(env, u)
  {
    var len := WireLen(env, u);
    forall v
      ensures Bytes(env, after)(v) == Bytes(env, before)(v) + if v == u then len else 0
    {
    }
    SumChange(env.messages, Bytes(env, before), Bytes(env, after), |env.messages|, u, len);
  }

  lemma RepeatBytesChange(env: Env, before: Air, after: Air, u: Unit)
    requires HasUnit(env.messages, u) && forall v :: Tries(after, v) == Tries(before, v) + if v == u then 1 else 0
    ensures Sum(env.messages, RepeatBytes(env, after), |env.messages|)
         == Sum(env.messages, RepeatBytes(env, before), |env.messages|)
            + if Tries(before, u) > 0 then WireLen(env, u) else 0
  {
    var len := WireLen(env, u);
    var d := if Tries(before, u) > 0 then len else 0;
    forall v
      ensures RepeatBytes(env, after)(v) == RepeatBytes(env, before)(v) + if v == u then d else 0
    {
    }
    SumChange(env.messages, RepeatBytes(env, before), RepeatBytes(env, after), |env.messages|, u, d);
  }

  lemma TransmitCost(env: Env, s: State, u: Unit, retransmission: bool)
    requires Sane(env) && Shaped(env, s) && HasUnit(env.messages, u) && (retransmission ==> Tries(s.air, u) > 0)
    ensures SameBalance(env, s, Transmit(env, s, u, retransmission))
  {
    BytesChange(env, s.air, Transmit(env, s, u, retransmission).air, u);
    RepeatBytesChange(env, s.air, Transmit(env, s, u, retransmission).air, u);
    SumChange(env.messages, Attempts(s.air), Attempts(Transmit(env, s, u, retransmission).air), |env.messages|, u, 1);
  }

  lemma ScheduleCost(env: Env, s: State, m: nat)
    requires Sane(env) && Shaped(env, s) && m < |env.messages|
    ensures SameBalance(env, s, ScheduleRecovery(env, s, m))
  {
    ReportBytesChange(env, s.queue.reports, m, |env.messages|);
  }

  lemma ScheduleKeepsSent(env: Env, s: State, m: nat)
    requires Sane(env) && Shaped(env, s) && m < |env.messages| && QueuedWereSent(s)
    ensures QueuedWereSent(ScheduleRecovery(env, s, m))
  {
    var n := Chunks(env, m);
    var release := if Selective(env, m) then NackArrival(env, m, n, s.free) else s.free + env.link.rtt;
    BatchContents(s.air.arrival, m, Selective(env, m), release, n);
    var b := Batch(s.air.arrival, m, Selective(env, m), release, n);
    forall i | 0 <= i < |b|
      ensures b[i].unit == Unit(m, b[i].unit.chunk)
    {
    }
  }

  /** The step from `s` to `t` leaves nothing unexplained, and queues only what was sent. */
  ghost predicate Billed(env: Env, s: State, t: State)
    requires Shaped(env, s)
  {
    SameBalance(env, s, t) && QueuedWereSent(t)
  }

  lemma ScheduleBills(env: Env, s: State, mid: State, m: nat, t: State)
    requires Sane(env) && Shaped(env, s) && Billed(env, s, mid) && m < |env.messages| && t == ScheduleRecovery(env, mid, m)
    ensures Billed(env, s, t)
  {
    ScheduleCost(env, mid, m);
    ScheduleKeepsSent(env, mid, m);
  }

  lemma SendFreshCost(env: Env, s: State, m: nat, t: State)
    requires Sane(env) && Shaped(env, s) && m < |env.messages| && s.queue.next[m] < Chunks(env, m) && QueuedWereSent(s)
    requires t == SendFresh(env, s, m)
    ensures Billed(env, s, t)
  {
    TransmitCost(env, s, Unit(m, s.queue.next[m]), false);
    assert Billed(env, s, Sent(env, s, m));
    ScheduleBills(env, s, Sent(env, s, m), m, t);
  }

  lemma ResentCost(env: Env, s: State, i: nat, t: State)
    requires Sane(env) && Shaped(env, s) && i < |s.queue.tasks| && HasUnit(env.messages, s.queue.tasks[i].unit)
    requires QueuedWereSent(s) && t == Resent(env, s, i)
    ensures Billed(env, s, t)
  {
    SwapRemoveOrigin(s.queue.tasks, i);
    SameAirSameBalance(env, s, Removed(s, i));
    TransmitCost(env, Removed(s, i), s.queue.tasks[i].unit, true);
  }

  lemma ResendCost(env: Env, s: State, i: nat, t: State)
    requires Sane(env) && Shaped(env, s) && i < |s.queue.tasks| && HasUnit(env.messages, s.queue.tasks[i].unit)
    requires QueuedWereSent(s) && t == Resend(env, s, i)
    ensures Billed(env, s, t)
  {
    var resent, m := Resent(env, s, i), s.queue.tasks[i].unit.message;
    ResentCost(env, s, i, resent);
    ResendIs(env, s, i);
    ScheduleBills(env, s, resent, m, ScheduleRecovery(env, resent, m));
  }

  /** The cursor and the clock are not billed. */
  lemma SameAirSameBalance(env: Env, s: State, t: State)
    requires Shaped(env, s) && Shaped(env, t) && t.air == s.air && t.cost == s.cost && t.queue.reports == s.queue.reports
    ensures SameBalance(env, s, t)
  {
  }

  lemma ActCost(env: Env, s: State, choice: Choice, t: State)
    requires Sane(env) && Shaped(env, s) && Possible(env, s, choice) && QueuedWereSent(s) && t == Act(env, s, choice)
    ensures Billed(env, s, t)
  {
    match choice
    case FreshMessage(m) =>
      SendFreshCost(env, s, m, t);
    case Retry(i) =>
      ResendCost(env, s, i, t);
    case FreshFromCursor(m) =>
      var turned := s.(queue := s.queue.(cursor := (m + 1) % |env.messages|));
      SameAirSameBalance(env, s, turned);
      SendFreshCost(env, turned, m, t);
    case Idle =>
      SameAirSameBalance(env, s, t);
  }

  /**
   * Wire bytes are setup, every attempt of every chunk, and control; repeats are the attempts past the
   * first; control is the reports; packets are those of the setup, the attempts and the reports.
   */
  ghost predicate CostOk(env: Env, s: State)
    requires Sane(env) && Shaped(env, s)
  {
    && QueuedWereSent(s)
    && Unexplained(env, s) == SetupBytes(env) && UnexplainedRepeats(env, s) == 0 && UnexplainedControl(env, s) == 0
    && UnexplainedPackets(env, s) == (SetupBytes(env) + env.budget - 1) / env.budget
  }

  lemma StartCost(env: Env, s: State)
    requires Sane(env) && s == Start(env)
    ensures CostOk(env, s)
  {
    SumNone(env.messages, Bytes(env, s.air), |env.messages|);
    SumNone(env.messages, RepeatBytes(env, s.air), |env.messages|);
    SumNone(env.messages, Attempts(s.air), |env.messages|);
    NoReports(env, s.queue.reports, |env.messages|);
  }

  lemma {:induction false} NoReports(env: Env, reports: seq<nat>, k: nat)
    requires k <= |env.messages| == |reports| && forall m :: 0 <= m < |reports| ==> reports[m] == 0
    ensures ReportBytes(env, reports, k) == 0 && ReportPackets(env, reports, k) == 0
  {
    if k > 0 {
      NoReports(env, reports, k - 1);
    }
  }

  /** The bill adds up at every step of every run. */
  lemma CostAlwaysAddsUp(env: Env, steps: nat)
    requires Sane(env)
    ensures CostOk(env, After(env, steps))
  {
    var ok := (i: nat, s: State) => Shaped(env, s) && CostOk(env, s);
    forall i: nat, s: State | ok(i, s)
      ensures ok(i + 1, Loop(env)(i, s))
    {
      ActCost(env, s, Choose(env, s), Step(env, s));
    }
    StartCost(env, Start(env));
    RunKeeps(Loop(env), ok, Start(env), steps);
  }

  // ---- The final bill ----

  /** Data bytes when every chunk takes exactly its limit of attempts. */
  ghost function Bill(env: Env): Unit -> int {
    u => if HasUnit(env.messages, u) then Packets(WireLen(env, u), Limit(env, u)) else 0
  }

  ghost function DataBill(env: Env): int {
    Sum(env.messages, Bill(env), |env.messages|)
  }

  /** A selective message reports once for every attempt of its slowest chunk but the first. */
  ghost function Reports(env: Env, m: nat): nat
    requires m < |env.messages|
  {
    if Selective(env, m) && Cap(env, m, Chunks(env, m)) > 0 then Cap(env, m, Chunks(env, m)) - 1 else 0
  }

  /** Report bytes of the first `k` messages when each reports exactly that often. */
  ghost function ControlBill(env: Env, k: nat): nat
    requires k <= |env.messages|
  {
    if k == 0 then 0 else ControlBill(env, k - 1) + Packets(NackBytes(env, k - 1), Reports(env, k - 1))
  }

  lemma {:induction false} FinalReports(env: Env, s: State, k: nat)
    requires Reachable(env) && Inv(env, s) && Done(env, s) && k <= |env.messages|
    ensures ReportBytes(env, s.queue.reports, k) == ControlBill(env, k)
  {
    if k > 0 {
      FinalReports(env, s, k - 1);
      ExitReports(env, s, k - 1);
    }
  }

  lemma FinalData(env: Env, s: State)
    requires Reachable(env) && Inv(env, s) && Done(env, s)
    ensures Sum(env.messages, Bytes(env, s.air), |env.messages|) == DataBill(env)
  {
    forall u | HasUnit(env.messages, u)
      ensures Bytes(env, s.air)(u) == Bill(env)(u)
    {
      ExitMeansDelivered(env, s, u);
    }
    SumAtMost(env.messages, Bytes(env, s.air), Bill(env), |env.messages|);
    SumAtMost(env.messages, Bill(env), Bytes(env, s.air), |env.messages|);
  }

  /** A finished run has put setup, exactly the data bill and exactly the reports on the wire. */
  lemma FinalWireBytes(env: Env, steps: nat)
    requires Reachable(env) && Done(env, After(env, steps))
    ensures var cost := After(env, steps).cost;
      && cost.control == ControlBill(env, |env.messages|)
      && cost.wire == SetupBytes(env) + DataBill(env) + ControlBill(env, |env.messages|)
  {
    CostAlwaysAddsUp(env, steps);
    InvAlwaysHolds(env, steps);
    FinalData(env, After(env, steps));
    FinalReports(env, After(env, steps), |env.messages|);
  }

  // ---- Completion acknowledgements ----

  /** Bytes and packets of the acknowledgements of the first `k` messages, and when the last of them is back. */
  datatype Acks = Acks(bytes: nat, packets: nat, quiescence: real)

  /** Fragmented messages under missing-only recovery are acknowledged when they complete. */
  function AckTally(env: Env, completion: seq<real>, from: real, k: nat): Acks
    requires Sane(env) && k <= |env.messages| == |completion|
  {
    if k == 0 then Acks(0, 0, from)
    else
      var before, m := AckTally(env, completion, from, k - 1), k - 1;
      if !Selective(env, m) then before
      else
        var attempts := AckAttempts(env, m);
        Acks(before.bytes + attempts * AckLen(env), before.packets + attempts,
             MaxReal(before.quiescence, ControlArrival(env, attempts, AckLen(env), completion[m])))
  }

  ghost predicate AcksGetThrough(env: Env, k: nat)
    requires k <= |env.messages|
  {
    forall m :: 0 <= m < k && Selective(env, m) ==> AckAttempts(env, m) < env.maxAttempts
  }

  /** The closing loop over the messages; `None` where the source panics. */
  method Acknowledge(env: Env, completion: seq<real>, from: real) returns (r: Option<Acks>)
    requires Sane(env) && |completion| == |env.messages|
    ensures r.Some? <==> AcksGetThrough(env, |env.messages|)
    ensures r.Some? ==> r.value == AckTally(env, completion, from, |env.messages|)
  {
    var acks := Acks(0, 0, from);
    for m := 0 to |env.messages|
      invariant AcksGetThrough(env, m) && acks == AckTally(env, completion, from, m)
    {
      if Selective(env, m) {
        var lost := (a: nat) => env.link.ackLost(m, a);
        assert AckAttempts(env, m) == FirstFrom(lost, 1, env.maxAttempts);
        var arrival, bytes, packets := DeliverControl(env, lost, AckLen(env), completion[m]);
        if arrival.None? {
          return None;
        }
        acks := Acks(acks.bytes + bytes, acks.packets + packets, MaxReal(acks.quiescence, arrival.value));
      }
    }
    r := Some(acks);
  }

  // ---- Schedule independence ----

  /** Same candidate, same chunks, same losses: only timing, reordering, session and control losses may differ. */
  ghost predicate SameLosses(a: Env, b: Env) {
    && a.candidate == b.candidate && a.maxAttempts == b.maxAttempts && a.link.lost == b.link.lost
    && |a.messages| == |b.messages|
    && forall m :: 0 <= m < |a.messages| ==>
      a.messages[m].kind == b.messages[m].kind && a.messages[m].chunks == b.messages[m].chunks
  }

  /** The same session and control losses as well: only timing and reordering may differ. */
  ghost predicate SameDraws(a: Env, b: Env) {
    && SameLosses(a, b) && a.session == b.session && a.auth == b.auth
    && a.link.nackLost == b.link.nackLost && a.link.ackLost == b.link.ackLost
  }

  lemma {:induction false} SameCap(a: Env, b: Env, m: nat, k: nat)
    requires a.link.lost == b.link.lost && a.maxAttempts == b.maxAttempts
    ensures Cap(a, m, k) == Cap(b, m, k)
  {
    if k > 0 {
      SameCap(a, b, m, k - 1);
      SameFirst(a, b, Unit(m, k - 1));
    }
  }

  lemma SameFirst(a: Env, b: Env, u: Unit)
    requires a.link.lost == b.link.lost && a.maxAttempts == b.maxAttempts
    ensures First(a, u) == First(b, u)
  {
    FirstFacts(a, u, First(b, u));
    FirstFacts(b, u, First(a, u));
  }

  lemma SameLimit(a: Env, b: Env, u: Unit)
    requires SameLosses(a, b) && HasUnit(a.messages, u)
    ensures HasUnit(b.messages, u) && Limit(a, u) == Limit(b, u) && WireLen(a, u) == WireLen(b, u)
  {
    SameFirst(a, b, u);
    SameCap(a, b, u.message, Chunks(a, u.message));
  }

  /** Final attempts do not depend on the schedule. */
  lemma AttemptsAreScheduleIndependent(a: Env, b: Env, n: nat, k: nat, u: Unit)
    requires Reachable(a) && Reachable(b) && SameLosses(a, b) && HasUnit(a.messages, u)
    requires Done(a, After(a, n)) && Done(b, After(b, k))
    ensures Tries(After(a, n).air, u) == Tries(After(b, k).air, u)
  {
    InvAlwaysHolds(a, n);
    InvAlwaysHolds(b, k);
    ExitMeansDelivered(a, After(a, n), u);
    ExitMeansDelivered(b, After(b, k), u);
    SameLimit(a, b, u);
  }

  /** The data bill depends on the candidate, the chunks and the losses, and on nothing else. */
  lemma DataBillIsScheduleIndependent(a: Env, b: Env)
    requires SameLosses(a, b)
    ensures DataBill(a) == DataBill(b)
  {
    forall u | HasUnit(a.messages, u)
      ensures Bill(a)(u) == Bill(b)(u)
    {
      SameLimit(a, b, u);
    }
    SumSame(a.messages, b.messages, Bill(a), Bill(b), |a.messages|);
  }

  lemma {:induction false} MorePacketsMoreBytes(len: nat, a: nat, b: nat)
    requires a <= b
    ensures Packets(len, a) <= Packets(len, b)
    decreases b
  {
    if a < b {
      MorePacketsMoreBytes(len, a, b - 1);
    }
  }

  /** Missing-only recovery never sends more data bytes than whole-message recovery. */
  lemma MissingOnlyBillsNoMore(missing: Env, whole: Env)
    requires missing.candidate == UdpMissingOnly && whole == missing.(candidate := UdpWholeMessage)
    ensures DataBill(missing) <= DataBill(whole)
  {
    forall u | HasUnit(missing.messages, u)
      ensures Bill(missing)(u) <= Bill(whole)(u)
    {
      var n := Chunks(whole, u.message);
      SameFirst(missing, whole, u);
      SameCap(missing, whole, u.message, n);
      CapFacts(whole, u.message, n, 0);
      assert u == Unit(u.message, u.chunk);
      MorePacketsMoreBytes(WireLen(whole, u), Limit(missing, u), Limit(whole, u));
    }
    SumAtMost(missing.messages, Bill(missing), Bill(whole), |missing.messages|);
  }

  /** The first success of two draws that agree. */
  lemma {:induction false} SameFirstFrom(f: nat -> bool, g: nat -> bool, a: nat, bound: nat)
    requires forall i :: f(i) == g(i)
    ensures FirstFrom(f, a, bound) == FirstFrom(g, a, bound)
    decreases bound - a
  {
    if a < bound {
      SameFirstFrom(f, g, a + 1, bound);
    }
  }

  lemma SameReports(a: Env, b: Env, m: nat)
    requires SameDraws(a, b) && m < |a.messages|
    ensures Reports(a, m) == Reports(b, m) && NackBytes(a, m) == NackBytes(b, m) && AckAttempts(a, m) == AckAttempts(b, m)
  {
    SameCap(a, b, m, Chunks(a, m));
    SameFirstFrom((x: nat) => a.link.nackLost(m, x), (x: nat) => b.link.nackLost(m, x), 1, a.maxAttempts);
    SameFirstFrom((x: nat) => a.link.ackLost(m, x), (x: nat) => b.link.ackLost(m, x), 1, a.maxAttempts);
  }

  lemma {:induction false} SameControlBill(a: Env, b: Env, k: nat)
    requires SameDraws(a, b) && k <= |a.messages|
    ensures ControlBill(a, k) == ControlBill(b, k)
  {
    if k > 0 {
      SameControlBill(a, b, k - 1);
      SameReports(a, b, k - 1);
    }
  }

  lemma {:induction false} SameAcks(a: Env, b: Env, x: seq<real>, y: seq<real>, from: real, start: real, k: nat)
    requires Sane(a) && Sane(b) && SameDraws(a, b) && k <= |a.messages| == |x| == |y|
    ensures AckTally(a, x, from, k).bytes == AckTally(b, y, start, k).bytes
  {
    if k > 0 {
      SameAcks(a, b, x, y, from, start, k - 1);
      SameReports(a, b, k - 1);
    }
  }

  /** Everything put on the wire, acknowledgements included. */
  ghost function TotalBytes(env: Env, s: State, completion: seq<real>, from: real): nat
    requires Sane(env) && |completion| == |env.messages|
  {
    s.cost.wire + AckTally(env, completion, from, |env.messages|).bytes
  }

  /** Total wire bytes do not depend on the schedule: round-trip time, bandwidth, release times and reordering. */
  lemma WireBytesAreScheduleIndependent(a: Env, b: Env, n: nat, k: nat, x: seq<real>, y: seq<real>, from: real, start: real)
    requires Reachable(a) && Reachable(b) && SameDraws(a, b) && Done(a, After(a, n)) && Done(b, After(b, k))
    requires |x| == |y| == |a.messages|
    ensures TotalBytes(a, After(a, n), x, from) == TotalBytes(b, After(b, k), y, start)
    ensures After(a, n).cost.control == After(b, k).cost.control
  {
    FinalWireBytes(a, n);
    FinalWireBytes(b, k);
    DataBillIsScheduleIndependent(a, b);
    SameControlBill(a, b, |a.messages|);
    SameAcks(a, b, x, y, from, start, |a.messages|);
  }
}
