/** How the stream simulator cuts a message into chunks, and when it can. */
module StreamChunks {
  import opened Options
  import opened FragmentGeometry
  import opened StreamModel

  const STREAM_FRAME_OVERHEAD_BYTES: nat := 48

  /**
   * The message is non-empty, the budget leaves room for fragment data, and the message is not one
   * that needs several fragments while still fitting a complete frame.
   */
  predicate Chunkable(useful: nat, budget: nat, auth: nat) {
    var complete, fragment := CompleteCapacity(budget, auth), FragmentCapacity(budget, auth);
    && useful > 0 && complete.Some? && fragment.Some? && fragment.value > 0
    && !(fragment.value < useful <= complete.value)
  }

  function TotalChunks(chunks: seq<Size>): nat {
    if chunks == [] then 0 else TotalChunks(chunks[..|chunks| - 1]) + chunks[|chunks| - 1].useful
  }

  function AsChunk(unit: DataUnit): Size {
    Size(unit.usefulLen, unit.wireLen, STREAM_FRAME_OVERHEAD_BYTES + unit.usefulLen)
  }

  function AsChunks(units: seq<DataUnit>): (r: seq<Size>)
    ensures |r| == |units| && forall i :: 0 <= i < |r| ==> r[i] == AsChunk(units[i])
  {
    seq(|units|, i requires 0 <= i < |units| => AsChunk(units[i]))
  }

  lemma {:induction false} ChunksKeepBytes(units: seq<DataUnit>)
    ensures TotalChunks(AsChunks(units)) == TotalUseful(units)
  {
    if units != [] {
      var n := |units| - 1;
      ChunksKeepBytes(units[..n]);
      assert AsChunks(units)[..n] == AsChunks(units[..n]);
    }
  }

  /** One chunk carries a message that fits one fragment, and only such a message. */
  lemma OneChunkIff(useful: nat, capacity: nat)
    requires useful > 0 && capacity > 0
    ensures CeilDiv(useful, capacity) == 1 <==> useful <= capacity
  {
    if useful <= capacity {
      CeilDivStep(0, useful, capacity, 0);
    } else {
      CeilDivAbove(useful, capacity, 1);
    }
  }

  /** The chunks of a message; `None` exactly where the source panics. */
  method ChunkMessage(useful: nat, budget: nat, auth: nat) returns (r: Option<seq<Size>>)
    ensures r.Some? <==> Chunkable(useful, budget, auth)
    ensures r.Some? ==> r.value != [] && TotalChunks(r.value) == useful
    ensures r.Some? ==> forall c :: c in r.value ==>
      0 < c.useful && c.udpWire <= budget && c.streamWire == STREAM_FRAME_OVERHEAD_BYTES + c.useful
    ensures r.Some? ==> (|r.value| == 1 <==> useful <= CompleteCapacity(budget, auth).value)
    ensures r.Some? ==> forall i :: 0 <= i < |r.value| - 1 ==> r.value[i].useful == FragmentCapacity(budget, auth).value
    ensures r.Some? ==> forall c :: c in r.value ==>
      c.udpWire == auth + (if |r.value| == 1 then COMPLETE_HEADER_LEN else FRAGMENT_HEADER_LEN) + c.useful
  {
    var complete, fragment := CompleteCapacity(budget, auth), FragmentCapacity(budget, auth);
    if useful == 0 || complete.None? || fragment.None? || fragment.value == 0 {
      return None;
    }
    var fragmented := useful > complete.value;
    var header := if fragmented then FRAGMENT_HEADER_LEN else COMPLETE_HEADER_LEN;
    var units := Fragments(useful, fragment.value, auth + header);
    OneChunkIff(useful, fragment.value);
    if |units| != 1 && !fragmented {
      return None;
    }
    ChunksKeepBytes(units);
    r := Some(AsChunks(units));
  }
}
