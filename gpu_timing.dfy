/** Timestamp queries of one frame: the `Queries` record that hands out query
    indices and resolves them, and the fixed-layout decoding of the six raw
    timestamps into encoder, compute and render start/end pairs. */
module GpuTiming {
  import opened Widths
  import opened Gpu

  /** Encoder start and end, compute start and end, render start and end. */
  const NUM_QUERIES: u64 := 6

  /** The slot of the raw timestamps from which `from_raw_results` takes
      each moment: the slots are read in the order encoder start, compute
      start, compute end, render start, render end, encoder end. */
  function SlotOf(s: Stamp): (slot: nat)
    ensures slot < NUM_QUERIES as int
  {
    match s
    case EncoderStart => 0
    case ComputeStart => 1
    case ComputeEnd => 2
    case RenderStart => 3
    case RenderEnd => 4
    case EncoderEnd => 5
  }

  /** The moment whose timestamp sits in `slot`. */
  function StampAt(slot: nat): Stamp
    requires slot < NUM_QUERIES as int
  {
    [EncoderStart, ComputeStart, ComputeEnd, RenderStart, RenderEnd, EncoderEnd][slot]
  }

  /** Every slot holds exactly one moment and every moment exactly one slot. */
  lemma SlotLayoutIsBijective()
    ensures forall s :: StampAt(SlotOf(s)) == s
    ensures forall slot :: 0 <= slot < NUM_QUERIES as int ==> SlotOf(StampAt(slot)) == slot
    ensures forall s, t :: SlotOf(s) == SlotOf(t) ==> s == t
  {
    forall s ensures StampAt(SlotOf(s)) == s {
      match s
      case EncoderStart =>
      case ComputeStart =>
      case ComputeEnd =>
      case RenderStart =>
      case RenderEnd =>
      case EncoderEnd =>
    }
  }

  /** `QueryResults`: three start/end pairs, each a `[u64; 2]`. */
  datatype QueryResults = QueryResults(encoderTimestamps: seq<u64>,
                                       renderStartEndTimestamps: seq<u64>,
                                       computeStartEndTimestamps: seq<u64>)
  {
    predicate WellFormed() {
      |encoderTimestamps| == 2 && |renderStartEndTimestamps| == 2 && |computeStartEndTimestamps| == 2
    }

    /** The timestamp these results report for moment `s`. */
    function Reported(s: Stamp): u64
      requires WellFormed()
    {
      match s
      case EncoderStart => encoderTimestamps[0]
      case EncoderEnd => encoderTimestamps[1]
      case ComputeStart => computeStartEndTimestamps[0]
      case ComputeEnd => computeStartEndTimestamps[1]
      case RenderStart => renderStartEndTimestamps[0]
      case RenderEnd => renderStartEndTimestamps[1]
    }
  }

  /** The `assert_eq!` on the number of raw timestamps failed. */
  datatype DecodeError = LengthMismatch(actual: nat)

  /** What `from_raw_results` returns, or the panic it raises. */
  function Decode(timestamps: seq<u64>): (r: Result<QueryResults, DecodeError>)
    ensures r.Ok? <==> |timestamps| == NUM_QUERIES as int
    ensures r.Err? ==> r.error == LengthMismatch(|timestamps|)
    ensures r.Ok? ==> r.value.WellFormed() && forall s :: r.value.Reported(s) == timestamps[SlotOf(s)]
  {
    if |timestamps| != NUM_QUERIES as int then Err(LengthMismatch(|timestamps|))
    else Ok(QueryResults([timestamps[0], timestamps[5]], [timestamps[3], timestamps[4]], [timestamps[1], timestamps[2]]))
  }

  /** Two raw timestamp vectors decode to the same results only if they are
      equal: no slot is dropped by the decoder. */
  lemma DecodeIsInjective(a: seq<u64>, b: seq<u64>)
    requires Decode(a).Ok? && Decode(a) == Decode(b)
    ensures a == b
  {
    SlotLayoutIsBijective();
    forall slot | 0 <= slot < NUM_QUERIES as int ensures a[slot] == b[slot] {
      assert Decode(a).value.Reported(StampAt(slot)) == a[slot];
    }
  }

  /** The `get_next_slot` closure: reads the slot under the counter and
      advances it. `read` records the slots read so far. */
  method GetNextSlot(timestamps: seq<u64>, nextSlot: nat, ghost read: seq<nat>)
    returns (slot: u64, next: nat, ghost readAfter: seq<nat>)
    requires nextSlot < |timestamps|
    ensures slot == timestamps[nextSlot] && next == nextSlot + 1
    ensures readAfter == read + [nextSlot]
  {
    slot := timestamps[nextSlot];
    next := nextSlot + 1;
    readAfter := read + [nextSlot];
  }

  /** `QueryResults::from_raw_results`. `slotsRead` lists the slots in the
      order the counter visits them. */
  method FromRawResults(timestamps: seq<u64>) returns (r: Result<QueryResults, DecodeError>, ghost slotsRead: seq<nat>)
    ensures r == Decode(timestamps)
    ensures r.Ok? ==> r.value.encoderTimestamps == [timestamps[0], timestamps[5]]
    ensures r.Ok? ==> r.value.computeStartEndTimestamps == [timestamps[1], timestamps[2]]
    ensures r.Ok? ==> r.value.renderStartEndTimestamps == [timestamps[3], timestamps[4]]
    ensures r.Ok? ==> slotsRead == [0, 1, 2, 3, 4, 5]
    ensures r.Err? ==> slotsRead == []
  {
    slotsRead := [];
    if |timestamps| != NUM_QUERIES as int {
      return Err(LengthMismatch(|timestamps|)), slotsRead;
    }
    var nextSlot := 0;
    var encoderTimestamps: seq<u64> := [0, 0];
    var slot, compute0, compute1, render0, render1;
    slot, nextSlot, slotsRead := GetNextSlot(timestamps, nextSlot, slotsRead);
    encoderTimestamps := encoderTimestamps[0 := slot];
    compute0, nextSlot, slotsRead := GetNextSlot(timestamps, nextSlot, slotsRead);
    compute1, nextSlot, slotsRead := GetNextSlot(timestamps, nextSlot, slotsRead);
    var computeStartEndTimestamps := [compute0, compute1];
    render0, nextSlot, slotsRead := GetNextSlot(timestamps, nextSlot, slotsRead);
    render1, nextSlot, slotsRead := GetNextSlot(timestamps, nextSlot, slotsRead);
    var renderStartEndTimestamps := [render0, render1];
    slot, nextSlot, slotsRead := GetNextSlot(timestamps, nextSlot, slotsRead);
    encoderTimestamps := encoderTimestamps[1 := slot];
    assert nextSlot == NUM_QUERIES as int;
    assert encoderTimestamps == [timestamps[0], timestamps[5]];
    r := Ok(QueryResults(encoderTimestamps, renderStartEndTimestamps, computeStartEndTimestamps));
  }

  /** `end.wrapping_sub(start)`: the ticks from `start` to `end`, modulo 2^64. */
  function ElapsedTicks(start: u64, end: u64): (r: u64)
    ensures (start + r) % U64_LIMIT == end
    ensures start <= end ==> r == end - start
  {
    if start <= end then end - start else U64_LIMIT - start + end
  }

  /** The wrapping subtraction is the only tick count that carries `start`
      to `end` under wrapping addition. */
  lemma ElapsedTicksIsUnique(start: u64, end: u64, ticks: u64)
    requires (start + ticks) % U64_LIMIT == end
    ensures ticks == ElapsedTicks(start, end)
  {
    if start + ticks < U64_LIMIT {
      assert start + ticks == end;
    } else {
      assert start + ticks - U64_LIMIT == end;
    }
  }

  /** The ticks of a `[start, end]` pair, as `print` computes them before
      scaling by the timestamp period. */
  function PairTicks(pair: seq<u64>): u64
    requires |pair| == 2
  {
    ElapsedTicks(pair[0], pair[1])
  }

  /** The query set of one frame with its resolve and destination buffers. */
  class Queries {
    const numQueries: u64
    /** Sizes in bytes: one `u64` per query. */
    const resolveBufferSize: nat := 8 * numQueries
    const destinationBufferSize: nat := 8 * numQueries
    var nextUnusedQuery: u32

    /** `Queries::new`. */
    constructor (numQueries: u64)
      ensures this.numQueries == numQueries && nextUnusedQuery == 0
      ensures resolveBufferSize == 8 * numQueries && destinationBufferSize == 8 * numQueries
    {
      this.numQueries := numQueries;
      nextUnusedQuery := 0;
    }

    /** The GPU memory the constructor allocates, all zero. */
    function Memory(): (m: GpuMemory)
      reads this
      ensures 8 * |m.resolveBuffer| == resolveBufferSize
    {
      FreshMemory(numQueries)
    }

    /** `Queries::resolve`: resolves the queries handed out so far into the
        resolve buffer and copies the whole resolve buffer to the destination
        buffer. The range may not exceed the query set. */
    method Resolve(encoder: CommandEncoder)
      requires nextUnusedQuery as int <= numQueries as int
      modifies encoder
      ensures encoder.commands == old(encoder.commands) + [ResolveQuerySet(Range(0, nextUnusedQuery), 0),
                                                         CopyBufferToBuffer(0, 0, resolveBufferSize)]
    {
      encoder.ResolveQuerySet(Range(0, nextUnusedQuery), 0);
      encoder.CopyBufferToBuffer(0, 0, resolveBufferSize);
    }
  }

  /** What `wait_for_results` yields: the first `numQueries` timestamps of the
      destination buffer. */
  function Readback(mem: GpuMemory, numQueries: nat): (r: seq<u64>)
    requires numQueries <= |mem.destinationBuffer|
    ensures |r| == numQueries
    ensures forall i :: 0 <= i < numQueries ==> r[i] == mem.destinationBuffer[i]
  {
    mem.destinationBuffer[..numQueries]
  }
}
