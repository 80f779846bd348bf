/** Sums over all chunks of a workload, and of real values over lists of chunks. */
module StreamSums {
  import opened StreamModel

  ghost function RowSum(f: Unit -> int, m: nat, k: nat): int {
    if k == 0 then 0 else RowSum(f, m, k - 1) + f(Unit(m, k - 1))
  }

  ghost function Sum(messages: seq<Message>, f: Unit -> int, k: nat): int
    requires k <= |messages|
  {
    if k == 0 then 0 else Sum(messages, f, k - 1) + RowSum(f, k - 1, |messages[k - 1].chunks|)
  }

  lemma {:induction false} RowSumChange(f: Unit -> int, g: Unit -> int, m: nat, k: nat, u: Unit, d: int)
    requires forall v :: g(v) == f(v) + if v == u then d else 0
    ensures RowSum(g, m, k) == RowSum(f, m, k) + if u.message == m && u.chunk < k then d else 0
  {
    if k > 0 {
      RowSumChange(f, g, m, k - 1, u, d);
    }
  }

  lemma {:induction false} SumChange(messages: seq<Message>, f: Unit -> int, g: Unit -> int, k: nat, u: Unit, d: int)
    requires k <= |messages| && HasUnit(messages, u)
    requires forall v :: g(v) == f(v) + if v == u then d else 0
    ensures Sum(messages, g, k) == Sum(messages, f, k) + if u.message < k then d else 0
  {
    if k > 0 {
      SumChange(messages, f, g, k - 1, u, d);
      RowSumChange(f, g, k - 1, |messages[k - 1].chunks|, u, d);
    }
  }

  lemma {:induction false} RowSumAtMost(f: Unit -> int, g: Unit -> int, m: nat, k: nat)
    requires forall c :: 0 <= c < k ==> f(Unit(m, c)) <= g(Unit(m, c))
    ensures RowSum(f, m, k) <= RowSum(g, m, k)
  {
    if k > 0 {
      RowSumAtMost(f, g, m, k - 1);
    }
  }

  lemma {:induction false} SumAtMost(messages: seq<Message>, f: Unit -> int, g: Unit -> int, k: nat)
    requires k <= |messages| && forall u :: HasUnit(messages, u) ==> f(u) <= g(u)
    ensures Sum(messages, f, k) <= Sum(messages, g, k)
  {
    if k > 0 {
      SumAtMost(messages, f, g, k - 1);
      RowSumAtMost(f, g, k - 1, |messages[k - 1].chunks|);
    }
  }

  lemma {:induction false} RowSumNone(f: Unit -> int, m: nat, k: nat)
    requires forall u :: f(u) == 0
    ensures RowSum(f, m, k) == 0
  {
    if k > 0 {
      RowSumNone(f, m, k - 1);
    }
  }

  lemma {:induction false} SumNone(messages: seq<Message>, f: Unit -> int, k: nat)
    requires k <= |messages| && forall u :: f(u) == 0
    ensures Sum(messages, f, k) == 0
  {
    if k > 0 {
      SumNone(messages, f, k - 1);
      RowSumNone(f, k - 1, |messages[k - 1].chunks|);
    }
  }

  /** Sums over two workloads with the same number of chunks per message, term by term. */
  lemma {:induction false} SumSame(a: seq<Message>, b: seq<Message>, f: Unit -> int, g: Unit -> int, k: nat)
    requires k <= |a| == |b| && forall m :: 0 <= m < |a| ==> |a[m].chunks| == |b[m].chunks|
    requires forall u :: HasUnit(a, u) ==> f(u) == g(u)
    ensures Sum(a, f, k) == Sum(b, g, k)
  {
    if k > 0 {
      SumSame(a, b, f, g, k - 1);
      RowSumAtMost(f, g, k - 1, |a[k - 1].chunks|);
      RowSumAtMost(g, f, k - 1, |a[k - 1].chunks|);
    }
  }

  // ---- Real sums ----

  ghost function Total(us: seq<Unit>, f: Unit -> real): real {
    if us == [] then 0.0 else f(us[0]) + Total(us[1..], f)
  }

  lemma {:induction false} TotalConcat(us: seq<Unit>, vs: seq<Unit>, f: Unit -> real)
    ensures Total(us + vs, f) == Total(us, f) + Total(vs, f)
  {
    if us == [] {
      assert us + vs == vs;
    } else {
      TotalConcat(us[1..], vs, f);
      assert (us + vs)[1..] == us[1..] + vs;
    }
  }

  lemma TotalSnoc(us: seq<Unit>, u: Unit, f: Unit -> real)
    ensures Total(us + [u], f) == Total(us, f) + f(u)
  {
    TotalConcat(us, [u], f);
    assert [u][1..] == [];
  }
}
