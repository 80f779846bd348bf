/**
 * How a logical payload is cut into datagrams, grouped under parity, and laid out on the wire.
 */
module FragmentGeometry {
  import opened Arithmetic
  import opened Options

  const COMPLETE_HEADER_LEN: nat := 1

  const FRAGMENT_HEADER_LEN: nat := 41

  const PARITY_HEADER_LEN: nat := 1 + 32 + 4 + 1

  const FEC_DATA_PER_GROUP: nat := 8

  function CompleteCapacity(budget: nat, auth: nat): Option<nat> {
    if budget < auth + COMPLETE_HEADER_LEN then None else Some(budget - auth - COMPLETE_HEADER_LEN)
  }

  function FragmentCapacity(budget: nat, auth: nat): Option<nat> {
    if budget < auth + FRAGMENT_HEADER_LEN then None else Some(budget - auth - FRAGMENT_HEADER_LEN)
  }

  datatype DataUnit = DataUnit(usefulLen: nat, wireLen: nat)

  function TotalUseful(units: seq<DataUnit>): nat {
    if units == [] then 0 else TotalUseful(units[..|units| - 1]) + units[|units| - 1].usefulLen
  }

  function CeilDiv(a: nat, b: nat): nat
    requires b > 0
  {
    (a + b - 1) / b
  }

  /** All units carry `capacity` bytes except the last, which carries the rest. */
  ghost predicate CutBy(units: seq<DataUnit>, logical: nat, capacity: nat, overhead: nat)
    requires capacity > 0
  {
    && |units| == CeilDiv(logical, capacity)
    && forall i :: 0 <= i < |units| ==>
         && units[i].usefulLen == (if i < |units| - 1 then capacity else logical - capacity * (|units| - 1))
         && 0 < units[i].usefulLen <= capacity
         && units[i].wireLen == overhead + units[i].usefulLen
  }

  lemma CeilDivStep(cut: nat, logical: nat, capacity: nat, count: nat)
    requires capacity > 0 && cut == capacity * count && cut < logical <= cut + capacity
    ensures CeilDiv(logical, capacity) == count + 1
  {
    DivUnique(logical + capacity - 1, capacity, count + 1);
  }

  lemma DivUnique(a: nat, d: nat, q: nat)
    requires d > 0 && q * d <= a < q * d + d
    ensures a / d == q
  {
    var p := a / d;
    assert p * d <= a < p * d + d;
    if p < q {
      MulAtMost(p + 1, q, d);
    } else if q < p {
      MulAtMost(q + 1, p, d);
    }
  }

  /** The budget fits the payload complete, or leaves room for fragment data. */
  predicate Framable(logical: nat, budget: nat, auth: nat) {
    var complete, fragment := CompleteCapacity(budget, auth), FragmentCapacity(budget, auth);
    complete.Some? && (logical <= complete.value || (fragment.Some? && fragment.value > 0))
  }

  /** The frames of a payload; `None` where the source panics because the budget cannot frame it. */
  method DataUnits(logical: nat, budget: nat, auth: nat) returns (r: Option<seq<DataUnit>>)
    ensures r.Some? <==> Framable(logical, budget, auth)
    ensures r.Some? ==> TotalUseful(r.value) == logical && forall u :: u in r.value ==> u.wireLen <= budget
    ensures r.Some? && logical <= CompleteCapacity(budget, auth).value ==>
      r.value == [DataUnit(logical, auth + COMPLETE_HEADER_LEN + logical)]
    ensures r.Some? && logical > CompleteCapacity(budget, auth).value ==>
      CutBy(r.value, logical, FragmentCapacity(budget, auth).value, auth + FRAGMENT_HEADER_LEN)
  {
    var complete := CompleteCapacity(budget, auth);
    if complete.None? {
      return None;
    }
    if logical <= complete.value {
      var unit := DataUnit(logical, auth + COMPLETE_HEADER_LEN + logical);
      var whole := [unit];
      assert whole[..0] == [];
      assert TotalUseful(whole) == TotalUseful(whole[..0]) + logical;
      return Some(whole);
    }
    var capacity := FragmentCapacity(budget, auth);
    if capacity.None? || capacity.value == 0 {
      return None;
    }
    var units := Fragments(logical, capacity.value, auth + FRAGMENT_HEADER_LEN);
    r := Some(units);
  }

  ghost predicate AllFull(units: seq<DataUnit>, capacity: nat, overhead: nat) {
    forall i :: 0 <= i < |units| ==> units[i] == DataUnit(capacity, overhead + capacity)
  }

  lemma LastCut(units: seq<DataUnit>, logical: nat, capacity: nat, overhead: nat, cut: nat)
    requires capacity > 0 && AllFull(units, capacity, overhead)
    requires cut == capacity * |units| && cut < logical <= cut + capacity
    ensures CutBy(units + [DataUnit(logical - cut, overhead + logical - cut)], logical, capacity, overhead)
  {
    CeilDivStep(cut, logical, capacity, |units|);
  }

  method Fragments(logical: nat, capacity: nat, overhead: nat) returns (units: seq<DataUnit>)
    requires logical > 0 && capacity > 0
    ensures TotalUseful(units) == logical && CutBy(units, logical, capacity, overhead)
  {
    var remaining := logical;
    units := [];
    while remaining > 0
      invariant 0 <= remaining <= logical && TotalUseful(units) == logical - remaining
      invariant remaining > 0 ==> logical - remaining == capacity * |units| && AllFull(units, capacity, overhead)
      invariant remaining == 0 ==> CutBy(units, logical, capacity, overhead)
    {
      var useful := if remaining < capacity then remaining else capacity;
      var unit := DataUnit(useful, overhead + useful);
      assert (units + [unit])[..|units|] == units;
      if remaining <= capacity {
        LastCut(units, logical, capacity, overhead, logical - remaining);
      } else {
        assert capacity * |units| + capacity == capacity * (|units| + 1);
      }
      units := units + [unit];
      remaining := remaining - useful;
    }
  }

  /** A payload size meant to need exactly `count` frames. */
  function LogicalBytesForFragments(count: nat, complete: nat, fragment: nat): nat
    requires count > 0
  {
    if count == 1 then (if complete > 1 then complete else 1)
    else if complete + 1 > fragment * (count - 1) + 1 then complete + 1
    else fragment * (count - 1) + 1
  }

  /** With `cut` bytes in the first `count - 1` fragments, the helper's size needs `count` of them iff `cut` covers a header. */
  lemma SizeNeedsCountIff(count: nat, fragment: nat, cut: nat, logical: nat)
    requires count > 1 && fragment > 0 && cut == fragment * (count - 1)
    requires logical == if cut >= fragment + 40 then cut + 1 else fragment + 41
    ensures CeilDiv(logical, fragment) == count <==> cut >= FRAGMENT_HEADER_LEN
  {
    if cut >= FRAGMENT_HEADER_LEN {
      CeilDivStep(cut, logical, fragment, count - 1);
    } else {
      assert count * fragment == cut + fragment;
      CeilDivAbove(logical, fragment, count);
    }
  }

  /**
   * The helper yields exactly the requested number of fragments, two or more, if and only if all
   * but one of them can carry the fragment header's worth of bytes.
   */
  lemma HelperIsExactIff(count: nat, budget: nat, auth: nat)
    requires count > 1 && budget > auth + FRAGMENT_HEADER_LEN
    ensures
      var complete, fragment := CompleteCapacity(budget, auth).value, FragmentCapacity(budget, auth).value;
      var logical := LogicalBytesForFragments(count, complete, fragment);
      logical > complete && (CeilDiv(logical, fragment) == count <==> fragment * (count - 1) >= FRAGMENT_HEADER_LEN)
  {
    var complete, fragment := CompleteCapacity(budget, auth).value, FragmentCapacity(budget, auth).value;
    var cut := fragment * (count - 1);
    SizeNeedsCountIff(count, fragment, cut, LogicalBytesForFragments(count, complete, fragment));
  }

  lemma CeilDivAbove(logical: nat, d: nat, count: nat)
    requires d > 0 && logical > count * d
    ensures CeilDiv(logical, d) > count
  {
    var q := CeilDiv(logical, d);
    assert logical + d - 1 < q * d + d;
    if q <= count {
      MulAtMost(q, count, d);
    }
  }

  // ---- Parity groups and wire order ----

  function GroupCount(units: nat): nat {
    if units < 2 then 0 else CeilDiv(units, FEC_DATA_PER_GROUP)
  }

  function GroupSize(units: nat, group: nat): nat
    requires group < GroupCount(units)
  {
    if units - group * FEC_DATA_PER_GROUP < FEC_DATA_PER_GROUP then units - group * FEC_DATA_PER_GROUP
    else FEC_DATA_PER_GROUP
  }

  /** Position on the wire of a data unit, and of a group's parity right after its data. */
  function DataOrdinal(unit: nat): nat {
    unit + unit / FEC_DATA_PER_GROUP
  }

  function ParityOrdinal(units: nat, group: nat): nat
    requires group < GroupCount(units)
  {
    group * FEC_DATA_PER_GROUP + GroupSize(units, group) + group
  }

  datatype Datagram = Data(unit: nat) | Parity(group: nat)

  /** What travels at a wire position. */
  function At(units: nat, ordinal: nat): (d: Datagram)
    requires units >= 2 && ordinal < units + GroupCount(units)
    ensures d.Data? ==> d.unit < units && DataOrdinal(d.unit) == ordinal
    ensures d.Parity? ==> d.group < GroupCount(units) && ParityOrdinal(units, d.group) == ordinal
  {
    var group, place := ordinal / 9, ordinal % 9;
    if place == 8 || ordinal == units + GroupCount(units) - 1 then Parity(group)
    else Data(8 * group + place)
  }

  lemma DataIsAt(units: nat, groups: nat, i: nat, q: nat)
    requires units >= 2 && groups == GroupCount(units) && i < units && q == i / FEC_DATA_PER_GROUP
    ensures i + q < units + groups && At(units, i + q) == Data(i)
  {
    var ordinal := i + q;
    assert q < groups;
    assert ordinal == 9 * q + (i - 8 * q);
    assert ordinal / 9 == q && ordinal % 9 == i - 8 * q;
  }

  lemma ParityIsAt(units: nat, groups: nat, g: nat, ordinal: nat)
    requires units >= 2 && groups == GroupCount(units) && g < groups && ordinal == ParityOrdinal(units, g)
    ensures ordinal < units + groups && At(units, ordinal) == Parity(g)
  {
    if units - g * FEC_DATA_PER_GROUP < FEC_DATA_PER_GROUP {
      assert g == groups - 1 && ordinal == units + g;
      assert ordinal / 9 == g;
    } else {
      assert ordinal == 9 * g + 8;
    }
  }

  /** The ordinals of data and parity are a bijection onto `0 .. units + groups`. */
  lemma OrdinalsAreABijection(units: nat)
    requires units >= 2
    ensures forall i :: 0 <= i < units ==> DataOrdinal(i) < units + GroupCount(units) && At(units, DataOrdinal(i)) == Data(i)
    ensures forall g :: 0 <= g < GroupCount(units) ==>
      ParityOrdinal(units, g) < units + GroupCount(units) && At(units, ParityOrdinal(units, g)) == Parity(g)
  {
    forall i | 0 <= i < units
      ensures DataOrdinal(i) < units + GroupCount(units) && At(units, DataOrdinal(i)) == Data(i)
    {
      DataIsAt(units, GroupCount(units), i, i / FEC_DATA_PER_GROUP);
    }
    forall g | 0 <= g < GroupCount(units)
      ensures ParityOrdinal(units, g) < units + GroupCount(units) && At(units, ParityOrdinal(units, g)) == Parity(g)
    {
      ParityIsAt(units, GroupCount(units), g, ParityOrdinal(units, g));
    }
  }
}
