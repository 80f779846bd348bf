/**
 * The timeout wheel: an ordered table of buckets and its reverse index. Both together refine a
 * plain map from value to instant, and `Expired` agrees with filtering that map.
 */
module TimeoutWheel {
  import opened Options

  predicate IsLeast(x: int, s: set<int>) {
    x in s && forall y :: y in s ==> x <= y
  }

  ghost function Pick<T>(s: set<T>): (x: T)
    requires s != {}
    ensures x in s
  {
    var x :| x in s; x
  }

  lemma {:induction false} LeastExists(s: set<int>) returns (least: int)
    requires s != {}
    ensures IsLeast(least, s)
  {
    var first := Pick(s);
    var rest := s - {first};
    least := first;
    if rest != {} {
      var other := LeastExists(rest);
      least := if first <= other then first else other;
    }
    assert forall y :: y in s ==> y == first || y in rest;
  }

  lemma LeastIsBelow(x: int, s: set<int>, y: int)
    requires IsLeast(x, s) && y in s
    ensures x <= y
  {
  }

  ghost predicate Distinct<T>(s: seq<T>) {
    forall i, j :: 0 <= i < j < |s| ==> s[i] != s[j]
  }

  class TimeoutWheel<T(==)> {
    var wheel: map<int, set<T>>
    var index: map<T, int>
    var timeout: nat

    /** Each value is in exactly the bucket the index names, and no bucket is empty. */
    ghost predicate Valid()
      reads this
    {
      && (forall v :: v in index ==> index[v] in wheel && v in wheel[index[v]])
      && (forall t, v :: t in wheel && v in wheel[t] ==> v in index && index[v] == t)
      && (forall t :: t in wheel ==> wheel[t] != {})
    }

    constructor ()
      ensures Valid() && index == map[] && timeout == 60_000
    {
      wheel, index, timeout := map[], map[], 60_000;
    }

    method SetTimeout(timeout: nat)
      requires Valid()
      modifies this`timeout
      ensures Valid() && this.timeout == timeout
    {
      this.timeout := timeout;
    }

    /** Take `e` out of the bucket at `t`, dropping the bucket when it empties. */
    method Unbucket(e: T, t: int)
      requires forall x, v :: x in wheel && v in wheel[x] && v != e ==> v in index && index[v] == x
      requires forall x :: x in wheel ==> wheel[x] != {}
      requires forall x :: x in wheel && e in wheel[x] ==> x == t
      requires forall v :: v in index && v != e ==> index[v] in wheel && v in wheel[index[v]]
      modifies this`wheel
      ensures forall x, v :: x in wheel && v in wheel[x] ==> v != e && v in index && index[v] == x
      ensures forall x :: x in wheel ==> wheel[x] != {}
      ensures forall v :: v in index && v != e ==> index[v] in wheel && v in wheel[index[v]]
    {
      if t in wheel {
        var bucket := wheel[t] - {e};
        assert forall v :: v in index && v != e && index[v] == t ==> v in bucket;
        if bucket == {} {
          wheel := wheel - {t};
        } else {
          wheel := wheel[t := bucket];
        }
      }
    }

    method Insert(e: T, instant: int)
      requires Valid()
      modifies this`wheel, this`index
      ensures Valid() && index == old(index)[e := instant]
    {
      if e in index {
        Unbucket(e, index[e]);
      }
      var bucket := if instant in wheel then wheel[instant] else {};
      wheel := wheel[instant := bucket + {e}];
      index := index[e := instant];
    }

    method Remove(value: T) returns (r: Option<T>)
      requires Valid()
      modifies this`wheel, this`index
      ensures Valid() && index == old(index) - {value}
      ensures r == if value in old(index) then Some(value) else None
    {
      if value !in index {
        return None;
      }
      var instant := index[value];
      Unbucket(value, instant);
      index := index - {value};
      r := Some(value);
    }

    /** The values whose instant plus the timeout lies before `now`, each once; nothing is removed. */
    method Expired(now: int) returns (r: seq<T>)
      requires Valid()
      ensures forall v :: v in r <==> v in index && index[v] + timeout < now
      ensures Distinct(r)
    {
      r := [];
      var left := wheel.Keys;
      while left != {}
        invariant left <= wheel.Keys && Distinct(r)
        invariant forall v :: v in r <==> v in index && index[v] !in left
        invariant forall t :: t in wheel && t !in left ==> t + timeout < now
        decreases |left|
      {
        ghost var least := LeastExists(left);
        var instant :| instant in left && IsLeast(instant, left);
        if instant + timeout >= now {
          forall v | v in index && index[v] in left
            ensures index[v] + timeout >= now
          {
            LeastIsBelow(instant, left, index[v]);
          }
          break;
        }
        r := AppendBucket(r, wheel[instant]);
        left := left - {instant};
      }
    }
  }

  method AppendBucket<T(==)>(start: seq<T>, bucket: set<T>) returns (r: seq<T>)
    requires Distinct(start) && forall v :: v in start ==> v !in bucket
    ensures Distinct(r) && forall v :: v in r <==> v in start || v in bucket
  {
    r := start;
    var left := bucket;
    while left != {}
      invariant left <= bucket && Distinct(r)
      invariant forall v :: v in r <==> v in start || (v in bucket && v !in left)
      decreases |left|
    {
      var v :| v in left;
      r := r + [v];
      left := left - {v};
    }
  }
}
