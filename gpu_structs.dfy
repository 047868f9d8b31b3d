/** The GPU-facing sampling-parameter block: a `repr(C)` record of eight
    32-bit words, five data fields followed by three words of padding, and the
    bytes it is uploaded as. */
module GpuStructs {
  import opened Widths

  /** The fields of the CPU-side sampling parameters that the GPU block
      copies. */
  datatype SamplingParameters = SamplingParameters(samplesPerPixel: u32, numBounces: u32, samplesPerFrame: u32,
                                                   totalSamplesCompleted: u32, frame: u32)

  /** `GPUSamplingParameters`; `padding` is the `_buffer: [u32; 3]` field. */
  datatype GpuSamplingParameters = GpuSamplingParameters(samplesPerPixel: u32, numBounces: u32, samplesPerFrame: u32,
                                                         totalSamplesCompleted: u32, frame: u32, padding: seq<u32>)
  {
    predicate WellFormed() { |padding| == 3 }
  }

  const GPU_SAMPLING_PARAMETERS_WORDS: nat := 8

  /** The record's memory image under `repr(C)`: the fields in declaration
      order, each a 32-bit word, with no gaps. */
  function Words(g: GpuSamplingParameters): (w: seq<u32>)
    requires g.WellFormed()
    ensures |w| == GPU_SAMPLING_PARAMETERS_WORDS
  {
    [g.samplesPerPixel, g.numBounces, g.samplesPerFrame, g.totalSamplesCompleted, g.frame] + g.padding
  }

  /** Reads a record back from its eight words. */
  function FromWords(w: seq<u32>): (g: GpuSamplingParameters)
    requires |w| == GPU_SAMPLING_PARAMETERS_WORDS
    ensures g.WellFormed()
  {
    GpuSamplingParameters(w[0], w[1], w[2], w[3], w[4], w[5..])
  }

  lemma WordsRoundTrip(g: GpuSamplingParameters)
    requires g.WellFormed()
    ensures FromWords(Words(g)) == g
  {
    assert Words(g)[5..] == g.padding;
  }

  lemma FromWordsRoundTrip(w: seq<u32>)
    requires |w| == GPU_SAMPLING_PARAMETERS_WORDS
    ensures Words(FromWords(w)) == w
  {
    assert w == w[..5] + w[5..];
  }

  /** `get_gpu_sampling_params`: copies the five fields and zeroes the
      padding. */
  function GetGpuSamplingParams(sp: SamplingParameters): (r: GpuSamplingParameters)
    ensures r.WellFormed()
    ensures Words(r) == [sp.samplesPerPixel, sp.numBounces, sp.samplesPerFrame, sp.totalSamplesCompleted, sp.frame,
                         0, 0, 0]
  {
    GpuSamplingParameters(sp.samplesPerPixel, sp.numBounces, sp.samplesPerFrame, sp.totalSamplesCompleted, sp.frame,
                          [0, 0, 0])
  }

  /** The CPU-side fields a GPU block carries. */
  function Unpack(g: GpuSamplingParameters): SamplingParameters
  {
    SamplingParameters(g.samplesPerPixel, g.numBounces, g.samplesPerFrame, g.totalSamplesCompleted, g.frame)
  }

  /** Packing loses nothing, and every packed block has zero padding. */
  lemma PackThenUnpack(sp: SamplingParameters)
    ensures Unpack(GetGpuSamplingParams(sp)) == sp
    ensures GetGpuSamplingParams(sp).padding == [0, 0, 0]
  {
  }

  /** The packed blocks are exactly the well-formed blocks with zero padding. */
  lemma PackedBlocksHaveZeroPadding(g: GpuSamplingParameters)
    ensures (exists sp :: GetGpuSamplingParams(sp) == g) <==> g.WellFormed() && g.padding == [0, 0, 0]
  {
    if g.WellFormed() && g.padding == [0, 0, 0] {
      assert GetGpuSamplingParams(Unpack(g)) == g;
    }
  }

  /** Little-endian bytes of a 32-bit word. */
  function U32Bytes(w: u32): (b: seq<u8>)
    ensures |b| == 4
  {
    [w % 256, w / 256 % 256, w / 256 / 256 % 256, w / 256 / 256 / 256]
  }

  function U32FromBytes(b: seq<u8>): u32
    requires |b| == 4
  {
    b[0] as int + 256 * (b[1] as int + 256 * (b[2] as int + 256 * b[3] as int))
  }

  /** Euclidean division by 256 recovers the quotient and remainder of `q * 256 + r`. */
  lemma DivMod256(q: int, r: int)
    requires 0 <= r < 256
    ensures (q * 256 + r) / 256 == q && (q * 256 + r) % 256 == r
  {
  }

  lemma U32BytesRoundTrip(w: u32)
    ensures U32FromBytes(U32Bytes(w)) == w
  {
  }

  lemma U32FromBytesRoundTrip(b: seq<u8>)
    requires |b| == 4
    ensures U32Bytes(U32FromBytes(b)) == b
  {
    var h2 := b[2] as int + 256 * b[3] as int;
    var h1 := b[1] as int + 256 * h2;
    var w := U32FromBytes(b);
    DivMod256(h1, b[0]);
    DivMod256(h2, b[1]);
    DivMod256(b[3], b[2]);
    assert w / 256 == h1 && w / 256 / 256 == h2 && w / 256 / 256 / 256 == b[3];
  }

  /** The bytes of a sequence of words, each little-endian, back to back, as
      `bytemuck::cast_slice` views them on a little-endian target. */
  function WordsBytes(ws: seq<u32>): (b: seq<u8>)
    decreases |ws|
  {
    if ws == [] then [] else U32Bytes(ws[0]) + WordsBytes(ws[1..])
  }

  /** Word `k` of the sequence occupies bytes `4k .. 4k + 4`. */
  lemma {:induction false} WordsBytesLayout(ws: seq<u32>, k: nat)
    requires k < |ws|
    ensures |WordsBytes(ws)| == 4 * |ws|
    ensures U32FromBytes(WordsBytes(ws)[4 * k..4 * k + 4]) == ws[k]
  {
    if k == 0 {
      WordsBytesLength(ws[1..]);
      assert WordsBytes(ws)[..4] == U32Bytes(ws[0]);
      U32BytesRoundTrip(ws[0]);
    } else {
      WordsBytesLayout(ws[1..], k - 1);
      assert WordsBytes(ws)[4 * k..4 * k + 4] == WordsBytes(ws[1..])[4 * (k - 1)..4 * (k - 1) + 4];
    }
  }

  lemma {:induction false} WordsBytesLength(ws: seq<u32>)
    ensures |WordsBytes(ws)| == 4 * |ws|
    decreases |ws|
  {
    if ws != [] {
      WordsBytesLength(ws[1..]);
    }
  }

  /** The 32 bytes uploaded to the sampling-parameters buffer. */
  function SamplingParamsBytes(g: GpuSamplingParameters): seq<u8>
    requires g.WellFormed()
  {
    WordsBytes(Words(g))
  }

  /** The uploaded block is 32 bytes, each field at four times its position,
      and the padding bytes of a packed block are zero. */
  lemma SamplingParamsBytesLayout(sp: SamplingParameters)
    ensures var b := SamplingParamsBytes(GetGpuSamplingParams(sp));
            |b| == 32
            && U32FromBytes(b[0..4]) == sp.samplesPerPixel
            && U32FromBytes(b[4..8]) == sp.numBounces
            && U32FromBytes(b[8..12]) == sp.samplesPerFrame
            && U32FromBytes(b[12..16]) == sp.totalSamplesCompleted
            && U32FromBytes(b[16..20]) == sp.frame
            && forall i :: 20 <= i < 32 ==> b[i] == 0
  {
    var w := Words(GetGpuSamplingParams(sp));
    WordsBytesLayout(w, 0);
    WordsBytesLayout(w, 1);
    WordsBytesLayout(w, 2);
    WordsBytesLayout(w, 3);
    WordsBytesLayout(w, 4);
    PaddingBytesAreZero(w[5..]);
    assert w == w[..5] + w[5..];
    WordsBytesAppend(w[..5], w[5..]);
    WordsBytesLength(w[..5]);
  }

  lemma {:induction false} WordsBytesAppend(a: seq<u32>, b: seq<u32>)
    ensures WordsBytes(a + b) == WordsBytes(a) + WordsBytes(b)
    decreases |a|
  {
    if a == [] {
      assert a + b == b;
    } else {
      assert (a + b)[1..] == a[1..] + b;
      WordsBytesAppend(a[1..], b);
    }
  }

  lemma {:induction false} PaddingBytesAreZero(ws: seq<u32>)
    requires forall i :: 0 <= i < |ws| ==> ws[i] == 0
    ensures forall i :: 0 <= i < |WordsBytes(ws)| ==> WordsBytes(ws)[i] == 0
    decreases |ws|
  {
    if ws != [] {
      PaddingBytesAreZero(ws[1..]);
    }
  }
}
