/**
 * One shared ordered stream against one stream per message, over the same case: the two runs send
 * the same packets at the same times, and differ only in which stream position a chunk holds.
 */
module StreamLockstep {
  import opened Options
  import opened Runs
  import opened StreamModel
  import opened StreamInvariant
  import opened StreamSteps

  /** The same case with a shared stream and with a stream per message. */
  ghost predicate Paired(single: Env, multi: Env) {
    Sane(single) && single.candidate == SingleReliableStream && multi == single.(candidate := MultipleReliableStreams)
  }

  /** Equal in everything but stream positions. */
  ghost predicate Alike(s: State, t: State) {
    s.air == t.air && s.queue == t.queue && s.free == t.free && s.cost == t.cost
  }

  // ---- Stream positions ----

  /** Every chunk holds an already handed out position of its own stream. */
  ghost predicate PlaceOk(env: Env, places: Places, u: Unit)
    requires u in places.of
  {
    && u.message < |env.messages| && StreamOf(env, u.message) == Some(places.of[u].stream)
    && places.of[u].stream < |places.nextPosition|
    && places.of[u].position < places.nextPosition[places.of[u].stream]
  }

  ghost predicate PlacesOk(env: Env, places: Places) {
    && |places.nextPosition| == |env.messages| + 1
    && (forall u :: u in places.of ==> PlaceOk(env, places, u))
    && (forall u, v :: u in places.of && v in places.of && places.of[u] == places.of[v] ==> u == v)
  }

  lemma AssignKeepsPlaces(env: Env, places: Places, u: Unit)
    requires PlacesOk(env, places) && HasUnit(env.messages, u)
    ensures PlacesOk(env, Assign(places, u, StreamOf(env, u.message)))
    ensures StreamOf(env, u.message).Some? ==> u in Assign(places, u, StreamOf(env, u.message)).of
  {
    var r := Assign(places, u, StreamOf(env, u.message));
    forall v | v in r.of
      ensures PlaceOk(env, r, v)
    {
      if v in places.of {
        assert PlaceOk(env, places, v);
      }
    }
    forall v, w | v in r.of && w in r.of && r.of[v] == r.of[w]
      ensures v == w
    {
      if v in places.of {
        assert PlaceOk(env, places, v);
      }
      if w in places.of {
        assert PlaceOk(env, places, w);
      }
    }
  }

  ghost predicate RefinesAt(shared: Places, own: Places, u: Unit, v: Unit)
    requires u in own.of && v in own.of && u in shared.of && v in shared.of
  {
    u.message == v.message && own.of[u].position <= own.of[v].position ==> shared.of[u].position <= shared.of[v].position
  }

  /** Whatever comes no later in its own stream comes no later in the shared one. */
  ghost predicate Refines(shared: Places, own: Places) {
    && shared.of.Keys == own.of.Keys
    && forall u, v :: u in own.of && v in own.of ==> RefinesAt(shared, own, u, v)
  }

  /** A new chunk goes last in both layouts. */
  lemma NewGoesLast(single: Env, multi: Env, shared: Places, own: Places, u: Unit, v: Unit)
    requires Paired(single, multi) && HasUnit(single.messages, u) && u !in shared.of && u !in own.of
    requires PlacesOk(single, shared) && PlacesOk(multi, own) && v in shared.of && v in own.of
    ensures var a, b := Assign(shared, u, StreamOf(single, u.message)), Assign(own, u, StreamOf(multi, u.message));
      && u in a.of && u in b.of && v in a.of && v in b.of
      && a.of[v].position < a.of[u].position && (v.message == u.message ==> b.of[v].position < b.of[u].position)
  {
    assert PlaceOk(single, shared, v) && PlaceOk(multi, own, v);
  }

  lemma AssignRefines(single: Env, multi: Env, shared: Places, own: Places, u: Unit)
    requires Paired(single, multi) && HasUnit(single.messages, u)
    requires PlacesOk(single, shared) && PlacesOk(multi, own) && Refines(shared, own)
    ensures Refines(Assign(shared, u, StreamOf(single, u.message)), Assign(own, u, StreamOf(multi, u.message)))
  {
    var a, b := Assign(shared, u, StreamOf(single, u.message)), Assign(own, u, StreamOf(multi, u.message));
    assert u in shared.of <==> u in own.of;
    if u !in shared.of {
      assert a.of.Keys == shared.of.Keys + {u} && b.of.Keys == own.of.Keys + {u};
      forall v, w | v in b.of && w in b.of
        ensures RefinesAt(a, b, v, w)
      {
        if v != u && w != u {
          assert RefinesAt(shared, own, v, w);
        } else if w != u {
          NewGoesLast(single, multi, shared, own, u, w);
        } else if v != u {
          NewGoesLast(single, multi, shared, own, u, v);
        }
      }
    }
  }

  // ---- Lockstep ----

  ghost predicate PlacesMatch(single: Env, multi: Env, shared: Places, own: Places) {
    PlacesOk(single, shared) && PlacesOk(multi, own) && Refines(shared, own)
  }

  lemma AssignKeepsMatch(single: Env, multi: Env, shared: Places, own: Places, u: Unit, a: Places, b: Places)
    requires Paired(single, multi) && HasUnit(single.messages, u) && PlacesMatch(single, multi, shared, own)
    requires a == Assign(shared, u, StreamOf(single, u.message)) && b == Assign(own, u, StreamOf(multi, u.message))
    ensures PlacesMatch(single, multi, a, b)
  {
    AssignKeepsPlaces(single, shared, u);
    AssignKeepsPlaces(multi, own, u);
    AssignRefines(single, multi, shared, own, u);
  }

  ghost predicate Lockstep(single: Env, multi: Env, s: State, t: State) {
    Alike(s, t) && Shaped(single, s) && Shaped(multi, t) && PlacesMatch(single, multi, s.places, t.places)
  }

  lemma TransmitAlike(single: Env, multi: Env, s: State, t: State, u: Unit, retransmission: bool)
    requires Paired(single, multi) && Alike(s, t) && HasUnit(single.messages, u)
    ensures Alike(Transmit(single, s, u, retransmission), Transmit(multi, t, u, retransmission))
  {
  }

  lemma TransmitKeepsLockstep(single: Env, multi: Env, s: State, t: State, u: Unit, retransmission: bool, p: State, q: State)
    requires Paired(single, multi) && Lockstep(single, multi, s, t) && HasUnit(single.messages, u)
    requires p == Transmit(single, s, u, retransmission) && q == Transmit(multi, t, u, retransmission)
    ensures Lockstep(single, multi, p, q)
  {
    TransmitAlike(single, multi, s, t, u, retransmission);
    AssignKeepsMatch(single, multi, s.places, t.places, u, p.places, q.places);
  }

  /** Without datagrams, sending a fresh chunk never schedules a batch. */
  lemma SendFreshOnStream(env: Env, s: State, m: nat)
    requires Sane(env) && Shaped(env, s) && m < |env.messages| && s.queue.next[m] < Chunks(env, m) && !Datagram(env, m)
    ensures SendFresh(env, s, m) == Sent(env, s, m)
  {
  }

  function Bumped(s: State, m: nat): State
    requires m < |s.queue.next|
  {
    s.(queue := s.queue.(next := s.queue.next[m := s.queue.next[m] + 1]))
  }

  lemma BumpKeepsLockstep(single: Env, multi: Env, s: State, t: State, m: nat)
    requires Lockstep(single, multi, s, t) && m < |s.queue.next|
    ensures Lockstep(single, multi, Bumped(s, m), Bumped(t, m))
  {
  }

  lemma SentKeepsLockstep(single: Env, multi: Env, s: State, t: State, m: nat)
    requires Paired(single, multi) && Lockstep(single, multi, s, t)
    requires m < |single.messages| && s.queue.next[m] < Chunks(single, m)
    ensures Lockstep(single, multi, Sent(single, s, m), Sent(multi, t, m))
  {
    var u := Unit(m, s.queue.next[m]);
    var p, q := Transmit(single, s, u, false), Transmit(multi, t, u, false);
    TransmitKeepsLockstep(single, multi, s, t, u, false, p, q);
    BumpKeepsLockstep(single, multi, p, q, m);
  }

  lemma SendFreshKeepsLockstep(single: Env, multi: Env, s: State, t: State, m: nat, p: State, q: State)
    requires Paired(single, multi) && Lockstep(single, multi, s, t)
    requires m < |single.messages| && s.queue.next[m] < Chunks(single, m)
    requires p == SendFresh(single, s, m) && q == SendFresh(multi, t, m)
    ensures Lockstep(single, multi, p, q)
  {
    SendFreshOnStream(single, s, m);
    SendFreshOnStream(multi, t, m);
    SentKeepsLockstep(single, multi, s, t, m);
  }

  lemma ResendKeepsLockstep(single: Env, multi: Env, s: State, t: State, i: nat, p: State, q: State)
    requires Paired(single, multi) && Lockstep(single, multi, s, t)
    requires i < |s.queue.tasks| && HasUnit(single.messages, s.queue.tasks[i].unit)
    requires p == Resend(single, s, i) && q == Resend(multi, t, i)
    ensures Lockstep(single, multi, p, q)
  {
    TransmitKeepsLockstep(single, multi, Removed(s, i), Removed(t, i), s.queue.tasks[i].unit, true, p, q);
  }

  lemma ActKeepsLockstep(single: Env, multi: Env, s: State, t: State, choice: Choice, p: State, q: State)
    requires Paired(single, multi) && Lockstep(single, multi, s, t) && Possible(single, s, choice)
    requires p == Act(single, s, choice) && q == Act(multi, t, choice)
    ensures Lockstep(single, multi, p, q)
  {
    match choice
    case FreshMessage(m) =>
      SendFreshKeepsLockstep(single, multi, s, t, m, p, q);
    case Retry(i) =>
      ResendKeepsLockstep(single, multi, s, t, i, p, q);
    case FreshFromCursor(m) =>
      var c := (m + 1) % |single.messages|;
      SendFreshKeepsLockstep(single, multi, s.(queue := s.queue.(cursor := c)), t.(queue := t.queue.(cursor := c)), m, p, q);
    case Idle =>
  }

  /** After every number of steps the two runs agree on everything but stream positions. */
  lemma RunsInLockstep(single: Env, multi: Env, steps: nat)
    requires Paired(single, multi)
    ensures Lockstep(single, multi, After(single, steps), After(multi, steps))
  {
    var rel := (i: nat, s: State, t: State) => Lockstep(single, multi, s, t);
    forall i: nat, s: State, t: State | rel(i, s, t)
      ensures rel(i + 1, Loop(single)(i, s), Loop(multi)(i, t))
    {
      assert Choose(single, s) == Choose(multi, t);
      ActKeepsLockstep(single, multi, s, t, Choose(single, s), Step(single, s), Step(multi, t));
    }
    RunsKeepBoth(Loop(single), Loop(multi), rel, Start(single), Start(multi), steps);
  }
}
