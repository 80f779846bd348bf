/**
 * The scheduler's order of preference, step by step: which chunk every iteration of the loop sends, when
 * the loop waits and for how long, and that round-robin brings every message its turn.
 */
module StreamOrder {
  import opened Options
  import opened StreamModel
  import opened StreamInvariant
  import opened StreamSteps
  import opened StreamRun

  // ---- What is due ----

  /** No message of the class has a fresh chunk released by now. */
  ghost predicate NoneFresh(env: Env, s: State, kind: Kind)
    requires Shaped(env, s)
  {
    forall m :: 0 <= m < |env.messages| ==> !Fresh(env.messages, s.queue.next, s.free, kind, m)
  }

  /** No retransmission of the class is released by now. */
  ghost predicate NoneReady(env: Env, s: State, kind: Kind) {
    forall i :: 0 <= i < |s.queue.tasks| ==> !Ready(env.messages, s.queue.tasks[i], s.free, kind)
  }

  /** `u` is the next chunk of the fresh control message released earliest, by id on a tie. */
  ghost predicate FirstControl(env: Env, s: State, u: Unit)
    requires Shaped(env, s)
  {
    && Fresh(env.messages, s.queue.next, s.free, Control, u.message) && u.chunk == s.queue.next[u.message]
    && forall m :: 0 <= m < |env.messages| && Fresh(env.messages, s.queue.next, s.free, Control, m) ==>
      env.messages[u.message].release < env.messages[m].release
      || (env.messages[u.message].release == env.messages[m].release && u.message <= m)
  }

  /** Released earlier or, at the same time, of a smaller message or of a smaller chunk of the same message. */
  ghost predicate ComesFirst(a: Task, b: Task) {
    if a.release != b.release then a.release < b.release
    else if a.unit.message != b.unit.message then a.unit.message < b.unit.message
    else a.unit.chunk <= b.unit.chunk
  }

  ghost predicate FirstTask(env: Env, s: State, kind: Kind, i: nat)
    requires i < |s.queue.tasks|
  {
    && Ready(env.messages, s.queue.tasks[i], s.free, kind)
    && forall j :: 0 <= j < |s.queue.tasks| && Ready(env.messages, s.queue.tasks[j], s.free, kind) ==>
      ComesFirst(s.queue.tasks[i], s.queue.tasks[j])
  }

  /** `u` is the released retransmission of the class that comes first. */
  ghost predicate FirstRetry(env: Env, s: State, kind: Kind, u: Unit) {
    exists i :: 0 <= i < |s.queue.tasks| && FirstTask(env, s, kind, i) && s.queue.tasks[i].unit == u
  }

  /** `u` is the next chunk of the first fresh bulk message in round-robin order. */
  ghost predicate FirstBulk(env: Env, s: State, u: Unit)
    requires Shaped(env, s) && env.messages != []
  {
    exists i :: FirstInTurn(env.messages, s.queue.next, s.free, s.queue.cursor, 0, i)
      && u.message == Turn(s.queue.cursor, i, |env.messages|) && u.chunk == s.queue.next[u.message]
  }

  datatype Rank = NewControl | OldControl | OldBulk | NewBulk

  /** `u` is first in its class, and every class before it has nothing to send. */
  ghost predicate DueAs(env: Env, s: State, u: Unit, rank: Rank)
    requires Sane(env) && Shaped(env, s)
  {
    match rank
    case NewControl => FirstControl(env, s, u)
    case OldControl => NoneFresh(env, s, Control) && FirstRetry(env, s, Control, u)
    case OldBulk => NoneFresh(env, s, Control) && NoneReady(env, s, Control) && FirstRetry(env, s, Bulk, u)
    case NewBulk =>
      NoneFresh(env, s, Control) && NoneReady(env, s, Control) && NoneReady(env, s, Bulk) && FirstBulk(env, s, u)
  }

  ghost predicate IsDue(env: Env, s: State, u: Unit)
    requires Sane(env) && Shaped(env, s)
  {
    exists rank :: DueAs(env, s, u, rank)
  }

  // ---- The loop sends exactly what is due ----

  /** The chunk a choice puts on the wire. */
  ghost function Target(env: Env, s: State, choice: Choice): Unit
    requires Shaped(env, s) && Possible(env, s, choice) && !choice.Idle?
  {
    match choice
    case FreshMessage(m) => Unit(m, s.queue.next[m])
    case Retry(i) => s.queue.tasks[i].unit
    case FreshFromCursor(m) => Unit(m, s.queue.next[m])
  }

  lemma PicksAreFirst(env: Env, s: State)
    requires Sane(env) && Shaped(env, s)
    ensures var r := FreshControl(env.messages, s.queue.next, s.free, |env.messages|);
      if r.None? then NoneFresh(env, s, Control) else FirstControl(env, s, Unit(r.value, s.queue.next[r.value]))
    ensures forall kind :: var r := PickTask(env.messages, s.queue.tasks, s.free, kind, |s.queue.tasks|);
      if r.None? then NoneReady(env, s, kind) else FirstTask(env, s, kind, r.value)
    ensures var r := FreshBulk(env.messages, s.queue.next, s.free, s.queue.cursor, 0);
      r.Some? ==> FirstBulk(env, s, Unit(r.value, s.queue.next[r.value]))
  {
    FreshControlIsEarliest(env.messages, s.queue.next, s.free, |env.messages|);
    FreshBulkIsFirstInTurn(env.messages, s.queue.next, s.free, s.queue.cursor, 0);
    PickedTaskIsFirst(env.messages, s.queue.tasks, s.free, Control, |s.queue.tasks|);
    PickedTaskIsFirst(env.messages, s.queue.tasks, s.free, Bulk, |s.queue.tasks|);
    forall kind
      ensures var r := PickTask(env.messages, s.queue.tasks, s.free, kind, |s.queue.tasks|);
        if r.None? then NoneReady(env, s, kind) else FirstTask(env, s, kind, r.value)
    {
      assert kind == Control || kind == Bulk;
    }
  }

  lemma ChosenIsDue(env: Env, s: State)
    requires Sane(env) && Shaped(env, s) && !Choose(env, s).Idle?
    ensures exists rank :: DueAs(env, s, Target(env, s, Choose(env, s)), rank)
    ensures Choose(env, s).FreshFromCursor? ==> DueAs(env, s, Target(env, s, Choose(env, s)), NewBulk)
  {
    PicksAreFirst(env, s);
    var control := FreshControl(env.messages, s.queue.next, s.free, |env.messages|);
    var controlRetry := PickTask(env.messages, s.queue.tasks, s.free, Control, |s.queue.tasks|);
    var bulkRetry := PickTask(env.messages, s.queue.tasks, s.free, Bulk, |s.queue.tasks|);
    var u := Target(env, s, Choose(env, s));
    if control.Some? {
      assert DueAs(env, s, u, NewControl);
    } else if controlRetry.Some? {
      assert DueAs(env, s, u, OldControl);
    } else if bulkRetry.Some? {
      assert DueAs(env, s, u, OldBulk);
    } else {
      assert DueAs(env, s, u, NewBulk);
    }
  }

  lemma FirstControlIsUnique(env: Env, s: State, u: Unit, v: Unit)
    requires Shaped(env, s) && FirstControl(env, s, u) && FirstControl(env, s, v)
    ensures u == v
  {
  }

  lemma FirstRetryIsUnique(env: Env, s: State, kind: Kind, u: Unit, v: Unit)
    requires FirstRetry(env, s, kind, u) && FirstRetry(env, s, kind, v)
    ensures u == v
  {
    var i :| 0 <= i < |s.queue.tasks| && FirstTask(env, s, kind, i) && s.queue.tasks[i].unit == u;
    var j :| 0 <= j < |s.queue.tasks| && FirstTask(env, s, kind, j) && s.queue.tasks[j].unit == v;
    assert ComesFirst(s.queue.tasks[i], s.queue.tasks[j]) && ComesFirst(s.queue.tasks[j], s.queue.tasks[i]);
  }

  lemma FirstBulkIsUnique(env: Env, s: State, u: Unit, v: Unit)
    requires Shaped(env, s) && env.messages != [] && FirstBulk(env, s, u) && FirstBulk(env, s, v)
    ensures u == v
  {
    var i: nat :| FirstInTurn(env.messages, s.queue.next, s.free, s.queue.cursor, 0, i)
      && u.message == Turn(s.queue.cursor, i, |env.messages|) && u.chunk == s.queue.next[u.message];
    var j: nat :| FirstInTurn(env.messages, s.queue.next, s.free, s.queue.cursor, 0, j)
      && v.message == Turn(s.queue.cursor, j, |env.messages|) && v.chunk == s.queue.next[v.message];
    assert !(i < j) && !(j < i);
  }

  lemma SomeRetryIsReady(env: Env, s: State, kind: Kind, u: Unit)
    requires FirstRetry(env, s, kind, u)
    ensures !NoneReady(env, s, kind)
  {
  }

  lemma SomeBulkIsFresh(env: Env, s: State, u: Unit)
    requires Shaped(env, s) && env.messages != [] && FirstBulk(env, s, u)
    ensures !NoneFresh(env, s, Bulk)
  {
  }

  /** Only one chunk is due, in one rank. */
  lemma DueIsUnique(env: Env, s: State, u: Unit, a: Rank, v: Unit, b: Rank)
    requires Sane(env) && Shaped(env, s) && DueAs(env, s, u, a) && DueAs(env, s, v, b)
    ensures u == v && a == b
  {
    if a.OldControl? {
      SomeRetryIsReady(env, s, Control, u);
    }
    if b.OldControl? {
      SomeRetryIsReady(env, s, Control, v);
    }
    if a.OldBulk? {
      SomeRetryIsReady(env, s, Bulk, u);
    }
    if b.OldBulk? {
      SomeRetryIsReady(env, s, Bulk, v);
    }
    match a
    case NewControl => FirstControlIsUnique(env, s, u, v);
    case OldControl => FirstRetryIsUnique(env, s, Control, u, v);
    case OldBulk => FirstRetryIsUnique(env, s, Bulk, u, v);
    case NewBulk => FirstBulkIsUnique(env, s, u, v);
  }

  /** Whatever is due is released. */
  lemma DueMeansReleased(env: Env, s: State, u: Unit)
    requires Sane(env) && Shaped(env, s) && IsDue(env, s, u)
    ensures !NothingReleased(env, s)
  {
    var rank :| DueAs(env, s, u, rank);
    if rank.NewBulk? {
      SomeBulkIsFresh(env, s, u);
    }
  }

  /** Control ranks are control messages and bulk ranks bulk ones; new chunks are the next of their message, old ones queued. */
  lemma DueHasItsRank(env: Env, s: State, u: Unit, rank: Rank)
    requires Sane(env) && Shaped(env, s) && DueAs(env, s, u, rank)
    ensures HasUnit(env.messages, u)
    ensures env.messages[u.message].kind == if rank.NewControl? || rank.OldControl? then Control else Bulk
    ensures if rank.NewControl? || rank.NewBulk? then u.chunk == s.queue.next[u.message] && env.messages[u.message].release <= s.free
            else exists task :: task in s.queue.tasks && task.unit == u && task.release <= s.free
  {
    if rank.OldControl? || rank.OldBulk? {
      var kind := if rank.OldControl? then Control else Bulk;
      var i :| 0 <= i < |s.queue.tasks| && FirstTask(env, s, kind, i) && s.queue.tasks[i].unit == u;
      assert s.queue.tasks[i] in s.queue.tasks;
    }
  }

  lemma IdleMeansNothingIsDue(env: Env, s: State, u: Unit)
    requires Sane(env) && Shaped(env, s) && Choose(env, s).Idle?
    ensures !IsDue(env, s, u)
  {
    PicksAreFirst(env, s);
    FreshBulkIsFirstInTurn(env.messages, s.queue.next, s.free, s.queue.cursor, 0);
    if rank :| DueAs(env, s, u, rank) {
      match rank
      case NewControl =>
      case OldControl => SomeRetryIsReady(env, s, Control, u);
      case OldBulk => SomeRetryIsReady(env, s, Bulk, u);
      case NewBulk =>
    }
  }

  /** An action adds one attempt to its target and to nothing else. */
  lemma ActSends(env: Env, s: State, choice: Choice, t: State, u: Unit)
    requires Sane(env) && Shaped(env, s) && Possible(env, s, choice) && t == Act(env, s, choice)
    ensures Tries(t.air, u) == Tries(s.air, u) + if !choice.Idle? && u == Target(env, s, choice) then 1 else 0
  {
  }

  lemma StepSendsWhatIsDue(env: Env, s: State, u: Unit)
    requires Sane(env) && Shaped(env, s)
    ensures Tries(Step(env, s).air, u) == Tries(s.air, u) + if IsDue(env, s, u) then 1 else 0
  {
    ActSends(env, s, Choose(env, s), Step(env, s), u);
    if Choose(env, s).Idle? {
      IdleMeansNothingIsDue(env, s, u);
    } else {
      ChosenIsDue(env, s);
      var v := Target(env, s, Choose(env, s));
      var b :| DueAs(env, s, v, b);
      if a :| DueAs(env, s, u, a) {
        DueIsUnique(env, s, u, a, v, b);
      }
    }
  }

  lemma DoneMeansNothingIsDue(env: Env, s: State, u: Unit)
    requires Sane(env) && Shaped(env, s) && Done(env, s)
    ensures !IsDue(env, s, u)
  {
    if IsDue(env, s, u) {
      DueMeansReleased(env, s, u);
    }
  }

  lemma AdvanceSendsWhatIsDue(env: Env, s: State, t: State, u: Unit)
    requires Sane(env) && Shaped(env, s) && t == Advance(env, s)
    ensures Tries(t.air, u) == Tries(s.air, u) + if IsDue(env, s, u) then 1 else 0
  {
    if Done(env, s) {
      DoneMeansNothingIsDue(env, s, u);
    } else {
      StepSendsWhatIsDue(env, s, u);
    }
  }

  /**
   * Iteration `n` gives one more attempt to the chunk that is due, and to no other: fresh control before
   * control retransmissions before bulk retransmissions before fresh bulk, each first of its class.
   */
  lemma SentIffDue(env: Env, n: nat, u: Unit)
    requires Sane(env)
    ensures Tries(After(env, n + 1).air, u) == Tries(After(env, n).air, u) + if IsDue(env, After(env, n), u) then 1 else 0
  {
    AfterNext(env, n);
    AdvanceSendsWhatIsDue(env, After(env, n), After(env, n + 1), u);
  }

  // ---- Waiting ----

  /** `r` is the earliest release of anything left to send. */
  ghost predicate EarliestRelease(env: Env, s: State, r: real)
    requires Shaped(env, s)
  {
    && (forall m :: 0 <= m < |env.messages| && s.queue.next[m] < Chunks(env, m) ==> r <= env.messages[m].release)
    && (forall i :: 0 <= i < |s.queue.tasks| ==> r <= s.queue.tasks[i].release)
    && ((exists m :: 0 <= m < |env.messages| && s.queue.next[m] < Chunks(env, m) && r == env.messages[m].release)
        || exists i :: 0 <= i < |s.queue.tasks| && r == s.queue.tasks[i].release)
  }

  lemma NextReadyIsEarliest(env: Env, s: State)
    requires Shaped(env, s)
    ensures var r := NextReady(env.messages, s.queue.next, s.queue.tasks);
      r.Some? ==> EarliestRelease(env, s, r.value)
  {
    NextFreshIsEarliest(env.messages, s.queue.next, |env.messages|);
    NextRetryIsEarliest(s.queue.tasks, |s.queue.tasks|);
  }

  lemma IdleStep(env: Env, s: State, t: State)
    requires Reachable(env) && Inv(env, s) && !Done(env, s) && Choose(env, s).Idle? && t == Step(env, s)
    ensures t == s.(free := t.free) && s.free < t.free && EarliestRelease(env, s, t.free)
  {
    IdlingHelps(env, s);
    IdleMeansNothingReleased(env, s);
    NextReadyIsEarliest(env, s);
  }

  lemma SomethingIsDueUnlessIdle(env: Env, s: State)
    requires Sane(env) && Shaped(env, s) && !Choose(env, s).Idle?
    ensures exists u :: IsDue(env, s, u)
  {
    ChosenIsDue(env, s);
    assert IsDue(env, s, Target(env, s, Choose(env, s)));
  }

  /** When nothing is due the loop waits, exactly until the earliest release of what is left to send. */
  lemma WaitsForTheEarliest(env: Env, n: nat, s: State, t: State)
    requires Reachable(env) && s == After(env, n) && t == After(env, n + 1)
    requires !Done(env, s) && forall u :: !IsDue(env, s, u)
    ensures t == s.(free := t.free) && s.free < t.free && EarliestRelease(env, s, t.free)
  {
    AfterNext(env, n);
    InvAlwaysHolds(env, n);
    if !Choose(env, s).Idle? {
      SomethingIsDueUnlessIdle(env, s);
    }
    IdleStep(env, s, t);
  }

  // ---- Round-robin ----

  /** Turns are counted from the cursor on, and around. */
  lemma TurnsStartAtTheCursor(cursor: nat, i: nat, n: nat)
    requires cursor < n && i < n
    ensures Turn(cursor, i, n) == if cursor + i < n then cursor + i else cursor + i - n
  {
    if cursor + i < n {
      Remainder(cursor + i, 0, cursor + i, n);
    } else {
      Remainder(cursor + i, 1, cursor + i - n, n);
    }
  }

  /** Only a fresh bulk chunk moves the cursor, to the message after it. */
  lemma CursorFollows(env: Env, n: nat, u: Unit)
    requires Sane(env)
    ensures DueAs(env, After(env, n), u, NewBulk) ==> After(env, n + 1).queue.cursor == (u.message + 1) % |env.messages|
    ensures After(env, n + 1).queue.cursor != After(env, n).queue.cursor ==>
      exists v :: DueAs(env, After(env, n), v, NewBulk)
  {
    var s := After(env, n);
    AfterNext(env, n);
    if Done(env, s) {
      DoneMeansNothingIsDue(env, s, u);
    } else {
      StepMovesCursor(env, s, u);
    }
  }

  lemma StepMovesCursor(env: Env, s: State, u: Unit)
    requires Sane(env) && Shaped(env, s)
    ensures DueAs(env, s, u, NewBulk) ==> Step(env, s).queue.cursor == (u.message + 1) % |env.messages|
    ensures Step(env, s).queue.cursor != s.queue.cursor ==> exists v :: DueAs(env, s, v, NewBulk)
  {
    var choice := Choose(env, s);
    if choice.Idle? {
      IdleMeansNothingIsDue(env, s, u);
    } else {
      ChosenIsDue(env, s);
      var v := Target(env, s, choice);
      var b :| DueAs(env, s, v, b);
      if DueAs(env, s, u, NewBulk) {
        DueIsUnique(env, s, u, NewBulk, v, b);
        BulkComesFromTheCursor(env, s, v);
      }
    }
  }

  lemma BulkComesFromTheCursor(env: Env, s: State, v: Unit)
    requires Sane(env) && Shaped(env, s) && !Choose(env, s).Idle? && DueAs(env, s, v, NewBulk)
    ensures Choose(env, s).FreshFromCursor?
  {
    PicksAreFirst(env, s);
    assert FreshControl(env.messages, s.queue.next, s.free, |env.messages|).None?;
    assert PickTask(env.messages, s.queue.tasks, s.free, Control, |s.queue.tasks|).None?;
    assert PickTask(env.messages, s.queue.tasks, s.free, Bulk, |s.queue.tasks|).None?;
  }

  /** The turn counted from the message after the one at `i`. */
  lemma ShiftTurn(cursor: nat, i: nat, j: nat, n: nat, next: nat)
    requires n > 0 && i < j && next == (cursor + i + 1) % n
    ensures Turn(next, j - i - 1, n) == Turn(cursor, j, n)
  {
    SameRemainder(cursor + i + 1, j - i - 1, n);
  }

  lemma SameRemainder(x: nat, d: nat, n: nat)
    requires n > 0
    ensures (x % n + d) % n == (x + d) % n
  {
    var q, r := x / n, x % n;
    var p, t := (r + d) / n, (r + d) % n;
    assert x + d == (q + p) * n + t;
    Remainder(x + d, q + p, t, n);
  }

  lemma AfterTheServed(cursor: nat, f: nat, n: nat, served: nat)
    requires n > 0 && served == Turn(cursor, f, n)
    ensures (served + 1) % n == (cursor + f + 1) % n
  {
    SameRemainder(cursor + f, 1, n);
  }

  lemma NextTurnIsNearer(cursor: nat, f: nat, i: nat, n: nat, served: nat, next: nat)
    requires n > 0 && f < i && served == Turn(cursor, f, n) && next == (served + 1) % n
    ensures Turn(next, i - f - 1, n) == Turn(cursor, i, n)
  {
    AfterTheServed(cursor, f, n, served);
    ShiftTurn(cursor, f, i, n, next);
  }

  lemma ServedBefore(env: Env, s: State, m: nat, i: nat, u: Unit) returns (f: nat)
    requires Sane(env) && Shaped(env, s) && i < |env.messages| && Fresh(env.messages, s.queue.next, s.free, Bulk, m)
    requires Turn(s.queue.cursor, i, |env.messages|) == m && FirstBulk(env, s, u) && u.message != m
    ensures f < i && u.message == Turn(s.queue.cursor, f, |env.messages|)
  {
    var first: nat :| FirstInTurn(env.messages, s.queue.next, s.free, s.queue.cursor, 0, first)
      && u.message == Turn(s.queue.cursor, first, |env.messages|) && u.chunk == s.queue.next[u.message];
    f := first;
  }

  /** In the state alone: a fresh message `i` places on is nearer once the first one in turn has been served. */
  lemma ServedTurnComesCloser(env: Env, s: State, m: nat, i: nat, u: Unit, cursor: nat) returns (j: nat)
    requires Sane(env) && Shaped(env, s) && i < |env.messages| && Fresh(env.messages, s.queue.next, s.free, Bulk, m)
    requires Turn(s.queue.cursor, i, |env.messages|) == m
    requires FirstBulk(env, s, u) && u.message != m && cursor == (u.message + 1) % |env.messages|
    ensures j < i && Turn(cursor, j, |env.messages|) == m
  {
    var f := ServedBefore(env, s, m, i, u);
    NextTurnIsNearer(s.queue.cursor, f, i, |env.messages|, u.message, cursor);
    j := i - f - 1;
  }

  /** While a bulk message waits with a fresh chunk, every other fresh bulk chunk sent brings its turn closer. */
  lemma TurnComesCloser(env: Env, n: nat, s: State, t: State, m: nat, i: nat, u: Unit) returns (j: nat)
    requires Sane(env) && s == After(env, n) && t == After(env, n + 1) && i < |env.messages|
    requires Fresh(env.messages, s.queue.next, s.free, Bulk, m) && Turn(s.queue.cursor, i, |env.messages|) == m
    requires DueAs(env, s, u, NewBulk) && u.message != m
    ensures j < i && Turn(t.queue.cursor, j, |env.messages|) == m
  {
    CursorFollows(env, n, u);
    j := ServedTurnComesCloser(env, s, m, i, u, t.queue.cursor);
  }
}
