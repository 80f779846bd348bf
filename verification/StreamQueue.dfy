/** The retransmission queue: which units it holds, each at most once, and how many per message. */
module StreamQueue {
  import opened StreamModel

  ghost predicate Queued(tasks: seq<Task>, u: Unit) {
    exists i :: 0 <= i < |tasks| && tasks[i].unit == u
  }

  ghost predicate Distinct(tasks: seq<Task>) {
    forall i, j :: 0 <= i < j < |tasks| ==> tasks[i].unit != tasks[j].unit
  }

  function CountFor(tasks: seq<Task>, m: nat): nat {
    if tasks == [] then 0
    else CountFor(tasks[..|tasks| - 1], m) + if tasks[|tasks| - 1].unit.message == m then 1 else 0
  }

  lemma {:induction false} CountAppend(a: seq<Task>, b: seq<Task>, m: nat)
    ensures CountFor(a + b, m) == CountFor(a, m) + CountFor(b, m)
  {
    if b == [] {
      assert a + b == a;
    } else {
      CountAppend(a, b[..|b| - 1], m);
      assert (a + b)[..|a + b| - 1] == a + b[..|b| - 1];
    }
  }

  lemma CountOne(t: Task, m: nat)
    ensures CountFor([t], m) == if t.unit.message == m then 1 else 0
  {
    assert [t][..0] == [];
  }

  lemma {:induction false} CountZero(tasks: seq<Task>, m: nat)
    ensures CountFor(tasks, m) == 0 <==> forall i :: 0 <= i < |tasks| ==> tasks[i].unit.message != m
  {
    if tasks != [] {
      var n := |tasks| - 1;
      CountZero(tasks[..n], m);
      assert forall i :: 0 <= i < n ==> tasks[..n][i] == tasks[i];
    }
  }

  lemma NoneQueued(tasks: seq<Task>, m: nat)
    requires CountFor(tasks, m) == 0
    ensures forall u: Unit :: u.message == m ==> !Queued(tasks, u)
  {
    CountZero(tasks, m);
  }

  lemma SomeQueued(tasks: seq<Task>, u: Unit)
    requires Queued(tasks, u)
    ensures CountFor(tasks, u.message) > 0
  {
    CountZero(tasks, u.message);
  }

  // ---- Removal ----

  lemma SwapRemoveCounts(tasks: seq<Task>, i: nat, m: nat)
    requires i < |tasks|
    ensures CountFor(SwapRemove(tasks, i), m) == CountFor(tasks, m) - if tasks[i].unit.message == m then 1 else 0
  {
    var last := |tasks| - 1;
    assert tasks[..last][..i] == tasks[..i];
    if i == last {
      assert SwapRemove(tasks, i) == tasks[..last];
    } else {
      var tail := tasks[i + 1..last];
      assert tasks == (tasks[..i] + [tasks[i]]) + (tail + [tasks[last]]);
      assert SwapRemove(tasks, i) == tasks[..i] + ([tasks[last]] + tail);
      CountAppend(tasks[..i] + [tasks[i]], tail + [tasks[last]], m);
      CountAppend(tasks[..i], [tasks[i]], m);
      CountAppend(tail, [tasks[last]], m);
      CountAppend(tasks[..i], [tasks[last]] + tail, m);
      CountAppend([tasks[last]], tail, m);
      CountOne(tasks[i], m);
    }
  }

  /** Where element `k` of the shortened queue came from. */
  function Origin(tasks: seq<Task>, i: nat, k: nat): nat
    requires i < |tasks| && k < |tasks| - 1
  {
    if k == i then |tasks| - 1 else k
  }

  lemma SwapRemoveOrigin(tasks: seq<Task>, i: nat)
    requires i < |tasks|
    ensures |SwapRemove(tasks, i)| == |tasks| - 1
    ensures forall k :: 0 <= k < |tasks| - 1 ==> SwapRemove(tasks, i)[k] == tasks[Origin(tasks, i, k)]
  {
  }

  lemma SwapRemoveQueued(tasks: seq<Task>, i: nat, u: Unit)
    requires i < |tasks| && Distinct(tasks)
    ensures Queued(SwapRemove(tasks, i), u) <==> Queued(tasks, u) && u != tasks[i].unit
  {
    SwapRemoveOrigin(tasks, i);
    var r := SwapRemove(tasks, i);
    if Queued(tasks, u) && u != tasks[i].unit {
      var j :| 0 <= j < |tasks| && tasks[j].unit == u;
      var k := if j == |tasks| - 1 then i else j;
      assert r[k].unit == u;
    }
    if Queued(r, u) {
      var k :| 0 <= k < |r| && r[k].unit == u;
      assert tasks[Origin(tasks, i, k)].unit == u;
    }
  }

  lemma SwapRemoveDistinct(tasks: seq<Task>, i: nat)
    requires i < |tasks| && Distinct(tasks)
    ensures Distinct(SwapRemove(tasks, i))
  {
    SwapRemoveOrigin(tasks, i);
  }

  // ---- Growth ----

  lemma AppendQueued(a: seq<Task>, b: seq<Task>, u: Unit)
    ensures Queued(a + b, u) <==> Queued(a, u) || Queued(b, u)
  {
    if Queued(a, u) {
      var i :| 0 <= i < |a| && a[i].unit == u;
      assert (a + b)[i].unit == u;
    }
    if Queued(b, u) {
      var i :| 0 <= i < |b| && b[i].unit == u;
      assert (a + b)[|a| + i].unit == u;
    }
  }

  lemma OneQueued(t: Task, u: Unit)
    ensures Queued([t], u) <==> u == t.unit
  {
    assert [t][0].unit == t.unit;
  }

  lemma AppendDistinct(a: seq<Task>, b: seq<Task>)
    requires Distinct(a) && Distinct(b)
    requires forall j :: 0 <= j < |b| ==> !Queued(a, b[j].unit)
    ensures Distinct(a + b)
  {
    forall i, j | 0 <= i < j < |a + b|
      ensures (a + b)[i].unit != (a + b)[j].unit
    {
      if i < |a| <= j {
        assert !Queued(a, b[j - |a|].unit);
      }
    }
  }

  lemma {:induction false} BatchContents(arrival: map<Unit, real>, m: nat, selective: bool, release: real, k: nat)
    ensures var b := Batch(arrival, m, selective, release, k);
      && (forall i :: 0 <= i < |b| ==> b[i].unit.message == m && b[i].unit.chunk < k && b[i].release == release)
      && Distinct(b)
      && (forall u: Unit :: Queued(b, u) <==> u.message == m && u.chunk < k && !(selective && u in arrival))
  {
    if k > 0 {
      BatchContents(arrival, m, selective, release, k - 1);
      var before, t := Batch(arrival, m, selective, release, k - 1), Task(Unit(m, k - 1), release);
      forall u: Unit
        ensures Queued(before + [t], u) <==> Queued(before, u) || u == t.unit
      {
        AppendQueued(before, [t], u);
        OneQueued(t, u);
      }
    }
  }

  lemma {:induction false} BatchCounts(arrival: map<Unit, real>, m: nat, selective: bool, release: real, k: nat, other: nat)
    ensures var b := Batch(arrival, m, selective, release, k);
      CountFor(b, other) == if other == m then |b| else 0
  {
    if k > 0 {
      BatchCounts(arrival, m, selective, release, k - 1, other);
      var before, t := Batch(arrival, m, selective, release, k - 1), Task(Unit(m, k - 1), release);
      CountAppend(before, [t], other);
      CountOne(t, other);
    }
  }
}
