/** Insertion sort under a total order given as a function. */
module Sorting {
  ghost predicate Orders<T(!new)>(le: (T, T) -> bool) {
    && (forall a, b :: le(a, b) || le(b, a))
    && (forall a, b, c :: le(a, b) && le(b, c) ==> le(a, c))
  }

  predicate Sorted<T>(xs: seq<T>, le: (T, T) -> bool) {
    forall i, j :: 0 <= i < j < |xs| ==> le(xs[i], xs[j])
  }

  function Insert<T>(xs: seq<T>, x: T, le: (T, T) -> bool): seq<T> {
    if xs == [] || le(xs[|xs| - 1], x) then xs + [x] else Insert(xs[..|xs| - 1], x, le) + [xs[|xs| - 1]]
  }

  function Sort<T>(xs: seq<T>, le: (T, T) -> bool): seq<T> {
    if xs == [] then [] else Insert(Sort(xs[..|xs| - 1], le), xs[|xs| - 1], le)
  }

  lemma {:induction false} InsertAdds<T>(xs: seq<T>, x: T, le: (T, T) -> bool)
    ensures multiset(Insert(xs, x, le)) == multiset(xs) + multiset{x}
  {
    if xs != [] && !le(xs[|xs| - 1], x) {
      InsertAdds(xs[..|xs| - 1], x, le);
      assert xs == xs[..|xs| - 1] + [xs[|xs| - 1]];
    }
  }

  /** Whatever is at most `top` stays so when something at most `top` is inserted. */
  lemma InsertStaysBelow<T(!new)>(xs: seq<T>, x: T, le: (T, T) -> bool, top: T)
    requires le(x, top) && forall i :: 0 <= i < |xs| ==> le(xs[i], top)
    ensures forall i :: 0 <= i < |Insert(xs, x, le)| ==> le(Insert(xs, x, le)[i], top)
  {
    var r := Insert(xs, x, le);
    InsertAdds(xs, x, le);
    forall i | 0 <= i < |r|
      ensures le(r[i], top)
    {
      assert r[i] in multiset(r);
    }
  }

  lemma {:induction false} InsertSorts<T(!new)>(xs: seq<T>, x: T, le: (T, T) -> bool)
    requires Orders(le) && Sorted(xs, le)
    ensures Sorted(Insert(xs, x, le), le)
  {
    if xs != [] {
      var n := |xs| - 1;
      if le(xs[n], x) {
        assert forall i :: 0 <= i < n ==> le(xs[i], xs[n]) && le(xs[i], x);
      } else {
        InsertSorts(xs[..n], x, le);
        InsertStaysBelow(xs[..n], x, le, xs[n]);
      }
    }
  }

  /** Sorting gives a sorted permutation. */
  lemma {:induction false} SortSorts<T(!new)>(xs: seq<T>, le: (T, T) -> bool)
    requires Orders(le)
    ensures Sorted(Sort(xs, le), le) && multiset(Sort(xs, le)) == multiset(xs)
  {
    if xs != [] {
      var n := |xs| - 1;
      SortSorts(xs[..n], le);
      InsertSorts(Sort(xs[..n], le), xs[n], le);
      InsertAdds(Sort(xs[..n], le), xs[n], le);
      assert xs == xs[..n] + [xs[n]];
    }
  }
}
