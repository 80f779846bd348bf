/**
 * The ordered-stream transport simulator: a priority scheduler that shares one link between fresh
 * chunks and retransmissions, under whole-message, missing-only or reliable-stream recovery. Loss
 * and reordering are functions of (unit, attempt); times are exact reals.
 */
module StreamModel {
  import opened Options
  import opened Runs

  datatype Candidate = UdpWholeMessage | UdpMissingOnly | SingleReliableStream | MultipleReliableStreams | HybridDatagramControl

  datatype Session = Cold | Resumed | Established

  datatype Kind = Bulk | Control

  datatype Size = Size(useful: nat, udpWire: nat, streamWire: nat)

  datatype Message = Message(kind: Kind, release: real, chunks: seq<Size>)

  datatype Unit = Unit(message: nat, chunk: nat)

  /** Whether an attempt of a unit is lost or reordered, or one of a message's missing-chunk reports or acknowledgement. */
  datatype Link = Link(
    rtt: real,
    bandwidth: real,
    lost: (Unit, nat) -> bool,
    reordered: (Unit, nat) -> bool,
    nackLost: (nat, nat) -> bool,
    ackLost: (nat, nat) -> bool)

  /** `maxAttempts` is the bound past which the source panics, 10 000 there. */
  datatype Env = Env(
    candidate: Candidate,
    session: Session,
    messages: seq<Message>,
    link: Link,
    auth: nat,
    budget: nat,
    maxAttempts: nat)

  datatype Task = Task(unit: Unit, release: real)

  datatype Place = Place(stream: nat, position: nat)

  datatype Air = Air(attempts: map<Unit, nat>, firstSend: map<Unit, real>, arrival: map<Unit, real>)

  datatype Places = Places(of: map<Unit, Place>, nextPosition: seq<nat>)

  /** `reports` is history: how many missing-chunk reports each message has caused. */
  datatype Queue = Queue(next: seq<nat>, tasks: seq<Task>, pending: seq<int>, cursor: nat, reports: seq<nat>)

  datatype Cost = Cost(wire: nat, retransmitted: nat, control: nat, packets: nat)

  datatype State = State(air: Air, queue: Queue, places: Places, free: real, cost: Cost)

  // ---- Static facts of a case ----

  predicate HasUnit(messages: seq<Message>, u: Unit) {
    u.message < |messages| && u.chunk < |messages[u.message].chunks|
  }

  predicate Sane(env: Env) {
    && env.messages != [] && env.link.rtt >= 0.0 && env.link.bandwidth > 0.0 && env.budget > 0
    && forall m :: 0 <= m < |env.messages| ==> env.messages[m].chunks != [] && env.messages[m].release >= 0.0
  }

  function StreamId(candidate: Candidate, message: nat, kind: Kind): Option<nat> {
    match candidate
    case SingleReliableStream => Some(0)
    case MultipleReliableStreams => Some(message + 1)
    case HybridDatagramControl => if kind == Bulk then Some(message + 1) else None
    case _ => None
  }

  function StreamOf(env: Env, m: nat): (r: Option<nat>)
    requires m < |env.messages|
    ensures r.Some? ==> r.value <= |env.messages|
  {
    StreamId(env.candidate, m, env.messages[m].kind)
  }

  predicate UsesSession(candidate: Candidate) {
    candidate.SingleReliableStream? || candidate.MultipleReliableStreams? || candidate.HybridDatagramControl?
  }

  predicate Datagram(env: Env, m: nat)
    requires m < |env.messages|
  {
    StreamOf(env, m).None?
  }

  /** Fragmented messages under missing-only recovery report and resend only what is missing. */
  predicate Selective(env: Env, m: nat)
    requires m < |env.messages|
  {
    env.candidate.UdpMissingOnly? && |env.messages[m].chunks| > 1
  }

  function WireLen(env: Env, u: Unit): nat
    requires HasUnit(env.messages, u)
  {
    var size := env.messages[u.message].chunks[u.chunk];
    if Datagram(env, u.message) then size.udpWire else size.streamWire
  }

  function Serialization(link: Link, bytes: nat): real
    requires link.bandwidth > 0.0
  {
    (bytes * 8) as real / link.bandwidth
  }

  function SetupBytes(env: Env): nat {
    if !UsesSession(env.candidate) || env.session.Established? then 0
    else if env.session.Cold? then 2400 else 1200
  }

  function SetupBlocking(env: Env): real {
    if UsesSession(env.candidate) && env.session.Cold? then env.link.rtt else 0.0
  }

  /** The first attempt from `a` on that `lost` lets through, or `bound`. */
  function FirstFrom(lost: nat -> bool, a: nat, bound: nat): (r: nat)
    ensures a <= r && (a <= bound ==> r <= bound)
    ensures forall i :: a <= i < r ==> lost(i)
    ensures r < bound ==> !lost(r)
    decreases bound - a
  {
    if a >= bound || !lost(a) then a else FirstFrom(lost, a + 1, bound)
  }

  function NackAttempts(env: Env, m: nat): nat {
    FirstFrom((a: nat) => env.link.nackLost(m, a), 1, env.maxAttempts)
  }

  function AckAttempts(env: Env, m: nat): nat {
    FirstFrom((a: nat) => env.link.ackLost(m, a), 1, env.maxAttempts)
  }

  // ---- Sending ----

  function Tries(air: Air, u: Unit): nat {
    if u in air.attempts then air.attempts[u] else 0
  }

  /** A chunk takes the next position of its stream the first time it is sent. */
  function Assign(places: Places, u: Unit, stream: Option<nat>): Places {
    if stream.None? || u in places.of || stream.value >= |places.nextPosition| then places
    else
      var id := stream.value;
      Places(places.of[u := Place(id, places.nextPosition[id])],
             places.nextPosition[id := places.nextPosition[id] + 1])
  }

  /** When an attempt that ended serialization at `end` reaches the receiver, unless it is lost. */
  function Landing(link: Link, u: Unit, attempt: nat, end: real): Option<real> {
    if link.lost(u, attempt) then None
    else Some(end + link.rtt / 2.0 + if link.reordered(u, attempt) then link.rtt / 2.0 else 0.0)
  }

  function Earliest(arrival: map<Unit, real>, u: Unit, landing: Option<real>): map<Unit, real> {
    if landing.None? || (u in arrival && arrival[u] <= landing.value) then arrival
    else arrival[u := landing.value]
  }

  function Lift(link: Link, air: Air, u: Unit, end: real): Air {
    var attempt := Tries(air, u) + 1;
    Air(air.attempts[u := attempt],
        if u in air.firstSend then air.firstSend else air.firstSend[u := end],
        Earliest(air.arrival, u, Landing(link, u, attempt, end)))
  }

  function Transmit(env: Env, s: State, u: Unit, retransmission: bool): State
    requires HasUnit(env.messages, u) && env.link.bandwidth > 0.0
  {
    var stream := StreamOf(env, u.message);
    var attempt := Tries(s.air, u) + 1;
    var wire := WireLen(env, u);
    var end := s.free + Serialization(env.link, wire);
    var retry := env.link.lost(u, attempt) && stream.Some?;
    State(Lift(env.link, s.air, u, end),
          if retry then s.queue.(tasks := s.queue.tasks + [Task(u, end + env.link.rtt)]) else s.queue,
          Assign(s.places, u, stream),
          end,
          Cost(s.cost.wire + wire,
               s.cost.retransmitted + (if retransmission || attempt > 1 then wire else 0),
               s.cost.control,
               s.cost.packets + 1))
  }

  // ---- Datagram recovery ----

  /** One task per chunk below `k` of message `m`; under selective recovery only for the missing ones. */
  function Batch(arrival: map<Unit, real>, m: nat, selective: bool, release: real, k: nat): seq<Task> {
    if k == 0 then []
    else
      var u := Unit(m, k - 1);
      if selective && u in arrival then Batch(arrival, m, selective, release, k - 1)
      else Batch(arrival, m, selective, release, k - 1) + [Task(u, release)]
  }

  predicate AllSent(air: Air, m: nat, n: nat) {
    forall c :: 0 <= c < n ==> Tries(air, Unit(m, c)) > 0
  }

  predicate AllArrived(air: Air, m: nat, n: nat) {
    forall c :: 0 <= c < n ==> Unit(m, c) in air.arrival
  }

  function NackLen(env: Env, n: nat): nat {
    env.auth + 1 + 32 + 4 + (n + 7) / 8
  }

  function AckLen(env: Env): nat {
    env.auth + 1 + 32
  }

  /** A missing-chunk report is repeated every round trip until one gets through. */
  function Nack(env: Env, m: nat, n: nat, cost: Cost): Cost {
    var bytes := NackAttempts(env, m) * NackLen(env, n);
    cost.(wire := cost.wire + bytes, control := cost.control + bytes, packets := cost.packets + NackAttempts(env, m))
  }

  /** When a control message of `len` bytes arrives that is first sent at `at` and gets through at the `attempts`-th go. */
  function ControlArrival(env: Env, attempts: nat, len: nat, at: real): real
    requires env.link.bandwidth > 0.0
  {
    at + (attempts - 1) as real * env.link.rtt + Serialization(env.link, len) + env.link.rtt / 2.0
  }

  function NackArrival(env: Env, m: nat, n: nat, free: real): real
    requires env.link.bandwidth > 0.0
  {
    ControlArrival(env, NackAttempts(env, m), NackLen(env, n), free + env.link.rtt / 2.0)
  }

  function ScheduleRecovery(env: Env, s: State, m: nat): State
    requires m < |env.messages| && env.link.bandwidth > 0.0 && m < |s.queue.pending| && m < |s.queue.reports|
  {
    var n := |env.messages[m].chunks|;
    if !Datagram(env, m) || s.queue.pending[m] != 0 || !AllSent(s.air, m, n) || AllArrived(s.air, m, n) then s
    else
      var selective := Selective(env, m);
      var release := if selective then NackArrival(env, m, n, s.free) else s.free + env.link.rtt;
      var batch := Batch(s.air.arrival, m, selective, release, n);
      s.(queue := s.queue.(tasks := s.queue.tasks + batch,
                           pending := s.queue.pending[m := |batch|],
                           reports := if selective then s.queue.reports[m := s.queue.reports[m] + 1] else s.queue.reports),
         cost := if selective then Nack(env, m, n, s.cost) else s.cost)
  }

  // ---- Choosing what to send ----

  /** Message `m` has a fresh chunk of the class that is released by `now`. */
  predicate Fresh(messages: seq<Message>, next: seq<nat>, now: real, kind: Kind, m: nat)
    requires |next| == |messages|
  {
    m < |messages| && messages[m].kind == kind && messages[m].release <= now && next[m] < |messages[m].chunks|
  }

  /** Among the first `k` messages, the fresh control message released earliest, by id on a tie. */
  function FreshControl(messages: seq<Message>, next: seq<nat>, now: real, k: nat): (r: Option<nat>)
    requires |next| == |messages| && k <= |messages|
    ensures r.Some? ==> r.value < k && Fresh(messages, next, now, Control, r.value)
  {
    if k == 0 then None
    else
      var best := FreshControl(messages, next, now, k - 1);
      if !Fresh(messages, next, now, Control, k - 1) then best
      else if best.Some? && messages[best.value].release <= messages[k - 1].release then best
      else Some(k - 1)
  }

  /** The message whose turn comes `i` places after the cursor. */
  function Turn(cursor: nat, i: nat, n: nat): (r: nat)
    requires n > 0
    ensures r < n
  {
    (cursor + i) % n
  }

  /** From `offset` places past the cursor on, the first message with a fresh bulk chunk. */
  function FreshBulk(messages: seq<Message>, next: seq<nat>, now: real, cursor: nat, offset: nat): (r: Option<nat>)
    requires |next| == |messages| && offset <= |messages| && messages != []
    ensures r.Some? ==> Fresh(messages, next, now, Bulk, r.value)
    decreases |messages| - offset
  {
    if offset == |messages| then None
    else if Fresh(messages, next, now, Bulk, Turn(cursor, offset, |messages|)) then Some(Turn(cursor, offset, |messages|))
    else FreshBulk(messages, next, now, cursor, offset + 1)
  }

  predicate Before(a: Task, b: Task) {
    a.release < b.release
    || (a.release == b.release
        && (a.unit.message < b.unit.message || (a.unit.message == b.unit.message && a.unit.chunk <= b.unit.chunk)))
  }

  predicate Ready(messages: seq<Message>, task: Task, now: real, kind: Kind) {
    HasUnit(messages, task.unit) && task.release <= now && messages[task.unit.message].kind == kind
  }

  /** Among the first `k` tasks, the ready one of the class that comes first. */
  function PickTask(messages: seq<Message>, tasks: seq<Task>, now: real, kind: Kind, k: nat): (r: Option<nat>)
    requires k <= |tasks|
    ensures r.Some? ==> r.value < k && Ready(messages, tasks[r.value], now, kind)
  {
    if k == 0 then None
    else
      var best := PickTask(messages, tasks, now, kind, k - 1);
      if !Ready(messages, tasks[k - 1], now, kind) then best
      else if best.Some? && Before(tasks[best.value], tasks[k - 1]) then best
      else Some(k - 1)
  }

  function Sooner(a: Option<real>, b: real): Option<real> {
    if a.Some? && a.value <= b then a else Some(b)
  }

  function NextFresh(messages: seq<Message>, next: seq<nat>, k: nat): Option<real>
    requires |next| == |messages| && k <= |messages|
  {
    if k == 0 then None
    else if next[k - 1] < |messages[k - 1].chunks| then Sooner(NextFresh(messages, next, k - 1), messages[k - 1].release)
    else NextFresh(messages, next, k - 1)
  }

  function NextRetry(tasks: seq<Task>, k: nat): Option<real>
    requires k <= |tasks|
  {
    if k == 0 then None else Sooner(NextRetry(tasks, k - 1), tasks[k - 1].release)
  }

  function NextReady(messages: seq<Message>, next: seq<nat>, tasks: seq<Task>): Option<real>
    requires |next| == |messages|
  {
    var first := NextFresh(messages, next, |messages|);
    var retry := NextRetry(tasks, |tasks|);
    if retry.None? then first else Sooner(first, retry.value)
  }

  // ---- The loop ----

  /** Removes element `i`, filling its slot with the last one. */
  function SwapRemove(tasks: seq<Task>, i: nat): seq<Task>
    requires i < |tasks|
  {
    var last := |tasks| - 1;
    tasks[..last][..i] + if i == last then [] else [tasks[last]] + tasks[i + 1..last]
  }

  predicate AllInitialSent(messages: seq<Message>, next: seq<nat>)
    requires |next| == |messages|
  {
    forall m :: 0 <= m < |messages| ==> next[m] == |messages[m].chunks|
  }

  predicate Shaped(env: Env, s: State) {
    |s.queue.next| == |s.queue.pending| == |s.queue.reports| == |env.messages| && |s.places.nextPosition| == |env.messages| + 1
  }

  predicate Done(env: Env, s: State)
    requires Shaped(env, s)
  {
    AllInitialSent(env.messages, s.queue.next) && s.queue.tasks == []
  }

  function SendFresh(env: Env, s: State, m: nat): State
    requires Sane(env) && Shaped(env, s) && m < |env.messages| && s.queue.next[m] < |env.messages[m].chunks|
  {
    var sent := Transmit(env, s, Unit(m, s.queue.next[m]), false);
    ScheduleRecovery(env, sent.(queue := sent.queue.(next := sent.queue.next[m := sent.queue.next[m] + 1])), m)
  }

  function Resend(env: Env, s: State, i: nat): State
    requires Sane(env) && Shaped(env, s) && i < |s.queue.tasks| && HasUnit(env.messages, s.queue.tasks[i].unit)
  {
    var u := s.queue.tasks[i].unit;
    var sent := Transmit(env, s.(queue := s.queue.(tasks := SwapRemove(s.queue.tasks, i))), u, true);
    if !Datagram(env, u.message) then sent
    else
      var pending := sent.queue.pending[u.message] - 1;
      ScheduleRecovery(env, sent.(queue := sent.queue.(pending := sent.queue.pending[u.message := pending])), u.message)
  }

  /** What the loop does next: fresh control, control retries, bulk retries, fresh bulk, then idling. */
  datatype Choice = FreshMessage(m: nat) | Retry(i: nat) | FreshFromCursor(m: nat) | Idle

  predicate Possible(env: Env, s: State, choice: Choice)
    requires Shaped(env, s)
  {
    match choice
    case FreshMessage(m) => m < |env.messages| && s.queue.next[m] < |env.messages[m].chunks|
    case FreshFromCursor(m) => m < |env.messages| && s.queue.next[m] < |env.messages[m].chunks|
    case Retry(i) => i < |s.queue.tasks| && HasUnit(env.messages, s.queue.tasks[i].unit)
    case Idle => true
  }

  function Choose(env: Env, s: State): (r: Choice)
    requires Sane(env) && Shaped(env, s)
    ensures Possible(env, s, r)
  {
    var control := FreshControl(env.messages, s.queue.next, s.free, |env.messages|);
    if control.Some? then FreshMessage(control.value)
    else
      var controlRetry := PickTask(env.messages, s.queue.tasks, s.free, Control, |s.queue.tasks|);
      if controlRetry.Some? then Retry(controlRetry.value)
      else
        var bulkRetry := PickTask(env.messages, s.queue.tasks, s.free, Bulk, |s.queue.tasks|);
        if bulkRetry.Some? then Retry(bulkRetry.value)
        else
          var bulk := FreshBulk(env.messages, s.queue.next, s.free, s.queue.cursor, 0);
          if bulk.Some? then FreshFromCursor(bulk.value) else Idle
  }

  function Act(env: Env, s: State, choice: Choice): (r: State)
    requires Sane(env) && Shaped(env, s) && Possible(env, s, choice)
    ensures Shaped(env, r)
  {
    match choice
    case FreshMessage(m) => SendFresh(env, s, m)
    case Retry(i) => Resend(env, s, i)
    case FreshFromCursor(m) => SendFresh(env, s.(queue := s.queue.(cursor := (m + 1) % |env.messages|)), m)
    case Idle =>
      var ready := NextReady(env.messages, s.queue.next, s.queue.tasks);
      if ready.Some? && s.free < ready.value then s.(free := ready.value) else s
  }

  function Step(env: Env, s: State): State
    requires Sane(env) && Shaped(env, s)
  {
    Act(env, s, Choose(env, s))
  }

  function Start(env: Env): (s: State)
    requires Sane(env)
    ensures Shaped(env, s)
  {
    var n := |env.messages|;
    State(Air(map[], map[], map[]),
          Queue(seq(n, i => 0), [], seq(n, i => 0), 0, seq(n, i => 0)),
          Places(map[], seq(n + 1, i => 0)),
          SetupBlocking(env) + Serialization(env.link, SetupBytes(env)),
          Cost(SetupBytes(env), 0, 0, (SetupBytes(env) + env.budget - 1) / env.budget))
  }

  function Advance(env: Env, s: State): State
    requires Sane(env) && Shaped(env, s)
  {
    if Done(env, s) then s else Step(env, s)
  }

  function Loop(env: Env): (nat, State) -> State
    requires Sane(env)
  {
    (i, s) => if Shaped(env, s) then Advance(env, s) else s
  }

  lemma LoopKeepsShape(env: Env, steps: nat)
    requires Sane(env)
    ensures Shaped(env, Iterate(Loop(env), Start(env), steps))
  {
    var shaped := (i: nat, s: State) => Shaped(env, s);
    assert Keeps(Loop(env), shaped);
    RunKeeps(Loop(env), shaped, Start(env), steps);
  }

  /** The state after `steps` iterations of the loop, or at its exit if that came first. */
  function After(env: Env, steps: nat): (s: State)
    requires Sane(env)
    ensures Shaped(env, s)
  {
    LoopKeepsShape(env, steps);
    Iterate(Loop(env), Start(env), steps)
  }

  lemma AfterNext(env: Env, steps: nat)
    requires Sane(env)
    ensures After(env, 0) == Start(env) && After(env, steps + 1) == Advance(env, After(env, steps))
  {
    LoopKeepsShape(env, steps);
  }
}
