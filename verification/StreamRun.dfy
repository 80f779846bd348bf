/**
 * Whole runs of the simulator: the loop always ends, with every chunk arrived after exactly as many
 * attempts as the loss draws dictate.
 */
module StreamRun {
  import opened Options
  import opened Runs
  import opened StreamModel
  import opened StreamQueue
  import opened StreamInvariant
  import opened StreamSteps
  import opened StreamSums

  // ---- The attempt budget ----

  /** Attempts chunk `u` still has before its limit. */
  ghost function Left(env: Env, air: Air): Unit -> int {
    u => if HasUnit(env.messages, u) then Limit(env, u) - Tries(air, u) else 0
  }

  ghost function Budget(env: Env, s: State): int {
    Sum(env.messages, Left(env, s.air), |env.messages|)
  }

  lemma BudgetIsNatural(env: Env, s: State)
    requires Inv(env, s)
    ensures Budget(env, s) >= 0
  {
    var zero: Unit -> int := u => 0;
    forall u | HasUnit(env.messages, u)
      ensures zero(u) <= Left(env, s.air)(u)
    {
      assert MessageOk(env, s, u.message);
      assert UnitOk(env, s, Unit(u.message, u.chunk));
    }
    SumAtMost(env.messages, zero, Left(env, s.air), |env.messages|);
    SumNone(env.messages, zero, |env.messages|);
  }

  /** Sending any chunk uses up one attempt. */
  lemma TransmitSpends(env: Env, s: State, t: State, u: Unit)
    requires Sane(env) && HasUnit(env.messages, u)
    requires forall v :: Tries(t.air, v) == Tries(s.air, v) + if v == u then 1 else 0
    ensures Budget(env, t) == Budget(env, s) - 1
  {
    SumChange(env.messages, Left(env, s.air), Left(env, t.air), |env.messages|, u, -1);
  }

  lemma ActSpends(env: Env, s: State, choice: Choice, t: State)
    requires Sane(env) && Shaped(env, s) && Possible(env, s, choice) && t == Act(env, s, choice)
    ensures Budget(env, t) == Budget(env, s) - if choice.Idle? then 0 else 1
  {
    match choice
    case FreshMessage(m) =>
      TransmitSpends(env, s, t, Unit(m, s.queue.next[m]));
    case Retry(i) =>
      TransmitSpends(env, s, t, s.queue.tasks[i].unit);
    case FreshFromCursor(m) =>
      var turned := s.(queue := s.queue.(cursor := (m + 1) % |env.messages|));
      TransmitSpends(env, turned, t, Unit(m, s.queue.next[m]));
    case Idle =>
  }

  lemma StepSpends(env: Env, s: State)
    requires Sane(env) && Shaped(env, s)
    ensures Budget(env, Step(env, s)) == Budget(env, s) - if Choose(env, s).Idle? then 0 else 1
  {
    ActSpends(env, s, Choose(env, s), Step(env, s));
  }

  // ---- Idling ----

  lemma MultipleBelow(p: nat, q: nat, r: nat, n: nat)
    requires r < n && p < q
    ensures p * n + r < q * n
  {
    var d: nat := q - p - 1;
    assert q * n == p * n + d * n + n;
  }

  lemma Remainder(x: nat, q: nat, r: nat, n: nat)
    requires r < n && x == q * n + r
    ensures x % n == r
  {
    var p := x / n;
    assert x == p * n + x % n;
    if p < q {
      MultipleBelow(p, q, x % n, n);
    } else if q < p {
      MultipleBelow(q, p, r, n);
    }
  }

  lemma TurnReaches(cursor: nat, n: nat, m: nat)
    requires m < n
    ensures exists i :: 0 <= i < n && Turn(cursor, i, n) == m
  {
    var q, r := cursor / n, cursor % n;
    assert cursor == q * n + r;
    if m >= r {
      Remainder(cursor + (m - r), q, m, n);
      assert Turn(cursor, m - r, n) == m;
    } else {
      assert cursor + (m + n - r) == (q + 1) * n + m;
      Remainder(cursor + (m + n - r), q + 1, m, n);
      assert Turn(cursor, m + n - r, n) == m;
    }
  }

  /** The loop idles exactly when no fresh chunk and no task is released yet. */
  ghost predicate NothingReleased(env: Env, s: State)
    requires Shaped(env, s)
  {
    && (forall m :: 0 <= m < |env.messages| && s.queue.next[m] < Chunks(env, m) ==> env.messages[m].release > s.free)
    && (forall i :: 0 <= i < |s.queue.tasks| ==> s.queue.tasks[i].release > s.free)
  }

  /** The control pick is the fresh message released earliest, by id on a tie; none means none is fresh. */
  lemma {:induction false} FreshControlIsEarliest(messages: seq<Message>, next: seq<nat>, now: real, k: nat)
    requires |next| == |messages| && k <= |messages|
    ensures var r := FreshControl(messages, next, now, k);
      forall m :: 0 <= m < k && Fresh(messages, next, now, Control, m) ==>
        && r.Some?
        && (messages[r.value].release < messages[m].release
            || (messages[r.value].release == messages[m].release && r.value <= m))
  {
    if k > 0 {
      FreshControlIsEarliest(messages, next, now, k - 1);
    }
  }

  ghost predicate FirstInTurn(messages: seq<Message>, next: seq<nat>, now: real, cursor: nat, offset: nat, i: nat)
    requires |next| == |messages| && messages != []
  {
    && offset <= i < |messages|
    && Fresh(messages, next, now, Bulk, Turn(cursor, i, |messages|))
    && forall j :: offset <= j < i ==> !Fresh(messages, next, now, Bulk, Turn(cursor, j, |messages|))
  }

  /** The bulk pick is the first in turn; none means none is fresh. */
  lemma {:induction false} FreshBulkIsFirstInTurn(messages: seq<Message>, next: seq<nat>, now: real, cursor: nat, offset: nat)
    requires |next| == |messages| && offset <= |messages| && messages != []
    ensures var r := FreshBulk(messages, next, now, cursor, offset);
      && (r.None? ==> forall i :: offset <= i < |messages| ==> !Fresh(messages, next, now, Bulk, Turn(cursor, i, |messages|)))
      && (r.Some? ==> exists i :: FirstInTurn(messages, next, now, cursor, offset, i) && Turn(cursor, i, |messages|) == r.value)
    decreases |messages| - offset
  {
    if offset < |messages| {
      FreshBulkIsFirstInTurn(messages, next, now, cursor, offset + 1);
      var r := FreshBulk(messages, next, now, cursor, offset);
      if Fresh(messages, next, now, Bulk, Turn(cursor, offset, |messages|)) {
        assert FirstInTurn(messages, next, now, cursor, offset, offset);
      } else if r.Some? {
        var i :| FirstInTurn(messages, next, now, cursor, offset + 1, i) && Turn(cursor, i, |messages|) == r.value;
        assert FirstInTurn(messages, next, now, cursor, offset, i);
      }
    }
  }

  /** The picked task precedes every ready task of its class; none means none is ready. */
  lemma {:induction false} PickedTaskIsFirst(messages: seq<Message>, tasks: seq<Task>, now: real, kind: Kind, k: nat)
    requires k <= |tasks|
    ensures var r := PickTask(messages, tasks, now, kind, k);
      forall i :: 0 <= i < k && Ready(messages, tasks[i], now, kind) ==> r.Some? && Before(tasks[r.value], tasks[i])
  {
    if k > 0 {
      PickedTaskIsFirst(messages, tasks, now, kind, k - 1);
    }
  }

  lemma {:induction false} NextFreshIsEarliest(messages: seq<Message>, next: seq<nat>, k: nat)
    requires |next| == |messages| && k <= |messages|
    ensures var r := NextFresh(messages, next, k);
      && (forall m :: 0 <= m < k && next[m] < |messages[m].chunks| ==> r.Some? && r.value <= messages[m].release)
      && (r.Some? ==> exists m :: 0 <= m < k && next[m] < |messages[m].chunks| && messages[m].release == r.value)
  {
    if k > 0 {
      NextFreshIsEarliest(messages, next, k - 1);
    }
  }

  lemma {:induction false} NextRetryIsEarliest(tasks: seq<Task>, k: nat)
    requires k <= |tasks|
    ensures var r := NextRetry(tasks, k);
      && (forall i :: 0 <= i < k ==> r.Some? && r.value <= tasks[i].release)
      && (r.Some? ==> exists i :: 0 <= i < k && tasks[i].release == r.value)
  {
    if k > 0 {
      NextRetryIsEarliest(tasks, k - 1);
    }
  }

  lemma IdleMeansNothingReleased(env: Env, s: State)
    requires Sane(env) && Shaped(env, s) && TasksHaveUnits(env, s)
    ensures Choose(env, s).Idle? <==> NothingReleased(env, s)
  {
    FreshControlIsEarliest(env.messages, s.queue.next, s.free, |env.messages|);
    FreshBulkIsFirstInTurn(env.messages, s.queue.next, s.free, s.queue.cursor, 0);
    PickedTaskIsFirst(env.messages, s.queue.tasks, s.free, Control, |s.queue.tasks|);
    PickedTaskIsFirst(env.messages, s.queue.tasks, s.free, Bulk, |s.queue.tasks|);
    if Choose(env, s).Idle? {
      forall m | 0 <= m < |env.messages| && s.queue.next[m] < Chunks(env, m)
        ensures env.messages[m].release > s.free
      {
        TurnReaches(s.queue.cursor, |env.messages|, m);
        assert !Fresh(env.messages, s.queue.next, s.free, env.messages[m].kind, m);
      }
      forall i | 0 <= i < |s.queue.tasks|
        ensures s.queue.tasks[i].release > s.free
      {
        var kind := env.messages[s.queue.tasks[i].unit.message].kind;
        assert !Ready(env.messages, s.queue.tasks[i], s.free, kind);
      }
    }
  }

  /** An unfinished simulation always has a future packet, and idling makes one ready. */
  lemma IdlingHelps(env: Env, s: State)
    requires Reachable(env) && Inv(env, s) && !Done(env, s) && Choose(env, s).Idle?
    ensures NextReady(env.messages, s.queue.next, s.queue.tasks).Some?
    ensures !Choose(env, Step(env, s)).Idle?
  {
    IdleMeansNothingReleased(env, s);
    NextFreshIsEarliest(env.messages, s.queue.next, |env.messages|);
    NextRetryIsEarliest(s.queue.tasks, |s.queue.tasks|);
    var t := Step(env, s);
    var r := NextReady(env.messages, s.queue.next, s.queue.tasks);
    if s.queue.tasks == [] {
      var m :| 0 <= m < |env.messages| && s.queue.next[m] != Chunks(env, m);
      assert MessageOk(env, s, m);
    }
    assert r.Some?;
    var first, retry := NextFresh(env.messages, s.queue.next, |env.messages|), NextRetry(s.queue.tasks, |s.queue.tasks|);
    if first.Some? && first.value == r.value {
      var m :| 0 <= m < |env.messages| && s.queue.next[m] < Chunks(env, m) && env.messages[m].release == r.value;
      assert t.free == r.value;
    } else {
      var i :| 0 <= i < |s.queue.tasks| && s.queue.tasks[i].release == r.value;
      assert t.free == r.value;
    }
    assert !NothingReleased(env, t);
    IdleMeansNothingReleased(env, t);
  }

  // ---- Runs ----

  /** Every reachable state satisfies the invariant. */
  lemma InvAlwaysHolds(env: Env, steps: nat)
    requires Reachable(env)
    ensures Inv(env, After(env, steps))
  {
    var inv := (i: nat, s: State) => Inv(env, s);
    forall i: nat, s: State | inv(i, s)
      ensures inv(i + 1, Loop(env)(i, s))
    {
      ActKeepsInv(env, s, Choose(env, s));
    }
    StartKeepsInv(env);
    RunKeeps(Loop(env), inv, Start(env), steps);
  }

  /**
   * The attempt assertion never fires and a first-send time exists exactly for what was sent: after every
   * step of every run, each chunk is within its limit, which is within the source's bound.
   */
  lemma AttemptsStayBounded(env: Env, steps: nat, u: Unit)
    requires Reachable(env) && HasUnit(env.messages, u)
    ensures Tries(After(env, steps).air, u) <= Limit(env, u) < env.maxAttempts
    ensures u in After(env, steps).air.firstSend <==> Tries(After(env, steps).air, u) > 0
  {
    var s, n := After(env, steps), Chunks(env, u.message);
    InvAlwaysHolds(env, steps);
    assert MessageOk(env, s, u.message);
    assert UnitOk(env, s, Unit(u.message, u.chunk));
    assert First(env, u) < env.maxAttempts;
    forall c | 0 <= c < n
      ensures First(env, Unit(u.message, c)) <= env.maxAttempts - 1
    {
      assert HasUnit(env.messages, Unit(u.message, c));
    }
    CapFacts(env, u.message, n, env.maxAttempts - 1);
  }

  /** A report is only ever sent for a message whose reports get through before the bound. */
  lemma ReportsGetThrough(env: Env, steps: nat, m: nat)
    requires Reachable(env) && m < |env.messages| && After(env, steps).queue.reports[m] > 0
    ensures Selective(env, m) && NackAttempts(env, m) < env.maxAttempts
  {
    InvAlwaysHolds(env, steps);
    assert MessageOk(env, After(env, steps), m);
  }

  ghost function IdleRank(env: Env, s: State): nat
    requires Sane(env) && Shaped(env, s)
  {
    if Choose(env, s).Idle? then 1 else 0
  }

  /** The round-robin search: the first message in turn with a fresh bulk chunk, and the cursor past it. */
  method SelectFreshBulk(env: Env, s: State) returns (r: Option<nat>, cursor: nat)
    requires Sane(env) && Shaped(env, s)
    ensures r == FreshBulk(env.messages, s.queue.next, s.free, s.queue.cursor, 0)
    ensures cursor == if r.Some? then (r.value + 1) % |env.messages| else s.queue.cursor
  {
    for offset := 0 to |env.messages|
      invariant FreshBulk(env.messages, s.queue.next, s.free, s.queue.cursor, 0)
             == FreshBulk(env.messages, s.queue.next, s.free, s.queue.cursor, offset)
    {
      var m := Turn(s.queue.cursor, offset, |env.messages|);
      if Fresh(env.messages, s.queue.next, s.free, Bulk, m) {
        return Some(m), (m + 1) % |env.messages|;
      }
    }
    return None, s.queue.cursor;
  }

  lemma OneMore(k: nat, len: nat, rtt: real)
    ensures k * len + len == (k + 1) * len && k as real * rtt + rtt == (k + 1) as real * rtt
  {
  }

  /** A control message, sent again every round trip until it arrives; `None` where the source panics. */
  method DeliverControl(env: Env, lost: nat -> bool, len: nat, at: real) returns (arrival: Option<real>, bytes: nat, packets: nat)
    requires Sane(env)
    ensures arrival.Some? <==> FirstFrom(lost, 1, env.maxAttempts) < env.maxAttempts
    ensures arrival.Some? ==> packets == FirstFrom(lost, 1, env.maxAttempts) && bytes == packets * len
    ensures arrival.Some? ==> arrival.value == ControlArrival(env, packets, len, at)
  {
    var attempt: nat, waited := 1, 0.0;
    bytes, packets := 0, 0;
    while attempt < env.maxAttempts
      invariant FirstFrom(lost, 1, env.maxAttempts) == FirstFrom(lost, attempt, env.maxAttempts)
      invariant attempt == packets + 1 && waited == packets as real * env.link.rtt && bytes == packets * len
    {
      OneMore(packets, len, env.link.rtt);
      bytes, packets := bytes + len, packets + 1;
      if !lost(attempt) {
        return Some(at + waited + Serialization(env.link, len) + env.link.rtt / 2.0), bytes, packets;
      }
      attempt, waited := attempt + 1, waited + env.link.rtt;
    }
    arrival := None;
  }

  /** The loop ends: the attempt budget falls with every packet, and an idle step is followed by a packet. */
  method Simulate(env: Env) returns (s: State, ghost steps: nat)
    requires Reachable(env)
    ensures s == After(env, steps) && Done(env, s)
  {
    s := Start(env);
    steps := 0;
    AfterNext(env, 0);
    while !Done(env, s)
      invariant s == After(env, steps)
      decreases Budget(env, s), IdleRank(env, s)
    {
      InvAlwaysHolds(env, steps);
      AfterNext(env, steps);
      BudgetIsNatural(env, s);
      StepSpends(env, s);
      if Choose(env, s).Idle? {
        IdlingHelps(env, s);
      }
      s := Iterate(env, s);
      steps := steps + 1;
    }
  }

  /** One iteration: fresh control, then control retries, bulk retries, fresh bulk in turn, and otherwise idling. */
  method Iterate(env: Env, s: State) returns (t: State)
    requires Sane(env) && Shaped(env, s)
    requires Choose(env, s).Idle? ==> NextReady(env.messages, s.queue.next, s.queue.tasks).Some?
    ensures t == Step(env, s)
  {
    var control := FreshControl(env.messages, s.queue.next, s.free, |env.messages|);
    if control.Some? {
      return SendFresh(env, s, control.value);
    }
    var retry := PickTask(env.messages, s.queue.tasks, s.free, Control, |s.queue.tasks|);
    if retry.None? {
      retry := PickTask(env.messages, s.queue.tasks, s.free, Bulk, |s.queue.tasks|);
    }
    if retry.Some? {
      return Resend(env, s, retry.value);
    }
    var bulk, cursor := SelectFreshBulk(env, s);
    if bulk.Some? {
      return SendFresh(env, s.(queue := s.queue.(cursor := cursor)), bulk.value);
    }
    var ready := NextReady(env.messages, s.queue.next, s.queue.tasks);
    t := if s.free < ready.value then s.(free := ready.value) else s;
  }

  /** Every run ends. */
  lemma EveryRunEnds(env: Env) returns (steps: nat)
    requires Reachable(env)
    ensures Done(env, After(env, steps))
  {
    steps := 0;
    while !Done(env, After(env, steps))
      decreases Budget(env, After(env, steps)), IdleRank(env, After(env, steps))
    {
      var s := After(env, steps);
      InvAlwaysHolds(env, steps);
      AfterNext(env, steps);
      BudgetIsNatural(env, s);
      StepSpends(env, s);
      if Choose(env, s).Idle? {
        IdlingHelps(env, s);
      }
      steps := steps + 1;
    }
  }

  // ---- What the exit means ----

  /** At the exit every chunk has arrived, after exactly as many attempts as its limit. */
  lemma ExitMeansDelivered(env: Env, s: State, u: Unit)
    requires Reachable(env) && Inv(env, s) && Done(env, s) && HasUnit(env.messages, u)
    ensures u in s.air.arrival && Tries(s.air, u) == Limit(env, u)
  {
    var m := u.message;
    assert MessageOk(env, s, m);
    assert u == Unit(m, u.chunk);
    assert UnitOk(env, s, u);
    if WholeMessage(env, m) {
      var b :| Level(env, s, m, b);
      LevelIsCap(env, s, m, b);
    }
  }

  /** At the exit a selective message has reported once for every attempt of its slowest chunk but the first. */
  lemma ExitReports(env: Env, s: State, m: nat)
    requires Reachable(env) && Inv(env, s) && Done(env, s) && m < |env.messages|
    ensures s.queue.reports[m] == if Selective(env, m) then Cap(env, m, Chunks(env, m)) - 1 else 0
  {
    assert MessageOk(env, s, m);
    if Selective(env, m) {
      var r := s.queue.reports[m];
      forall c | 0 <= c < Chunks(env, m)
        ensures First(env, Unit(m, c)) <= r + 1
      {
        assert UnitOk(env, s, Unit(m, c));
      }
      CapFacts(env, m, Chunks(env, m), r + 1);
    }
  }
}
