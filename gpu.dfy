/** The part of the wgpu command model the frame uses: the commands an encoder
    records, what the GPU does with timestamp queries and buffers when it runs
    them, and the effects of submitting and presenting. Shader work (the
    compute dispatch and the draw) is recorded but its effect on the image is
    not modelled. */
module Gpu {
  import opened Widths

  /** The moment a timestamp query measures within one frame. */
  datatype Stamp = EncoderStart | ComputeStart | ComputeEnd | RenderStart | RenderEnd | EncoderEnd

  /** Query indices a pass writes at its beginning and at its end. */
  datatype PassTimestampWrites = PassTimestampWrites(beginningOfPass: nat, endOfPass: nat)

  datatype Pipeline = ComputeShaderPipeline | DisplayPipeline
  datatype BindGroup = ImageBindGroup | SceneBindGroup | ParametersBindGroup | DisplayBindGroup
  datatype Color = Green

  /** The half-open range `start..end`. */
  datatype Range = Range(start: nat, end: nat)

  /** One command recorded by a command encoder. A pass is recorded whole, with
      the pipeline and the bind groups (by group index) set inside it. The
      query set, the resolve buffer and the destination buffer are those of
      the frame's one `Queries`; offsets and sizes are in bytes. */
  datatype Command =
    | WriteTimestamp(query: nat)
    | ComputePass(timestamps: PassTimestampWrites, pipeline: Pipeline, bindGroups: seq<BindGroup>,
                  workgroups: (u32, u32, u32))
    | RenderPass(timestamps: PassTimestampWrites, clear: Color, pipeline: Pipeline, bindGroups: seq<BindGroup>,
                 vertices: Range, instances: Range)
    | ResolveQuerySet(queries: Range, destinationOffset: nat)
    | CopyBufferToBuffer(sourceOffset: nat, destinationOffset: nat, size: nat)
  {
    predicate IsPass() { ComputePass? || RenderPass? }
  }

  type SurfaceTexture(==)

  /** What a frame does to the queue and the surface. */
  datatype Effect = Submit(commands: seq<Command>) | Present(texture: SurfaceTexture)

  /** wgpu::CommandEncoder: the commands recorded so far. */
  class CommandEncoder {
    var commands: seq<Command>

    constructor ()
      ensures commands == []
    {
      commands := [];
    }

    method WriteTimestamp(query: nat)
      modifies this
      ensures commands == old(commands) + [Command.WriteTimestamp(query)]
    {
      commands := commands + [Command.WriteTimestamp(query)];
    }

    /** Records a compute or render pass when its pass encoder is dropped. */
    method RecordPass(pass: Command)
      requires pass.IsPass()
      modifies this
      ensures commands == old(commands) + [pass]
    {
      commands := commands + [pass];
    }

    method ResolveQuerySet(queries: Range, destinationOffset: nat)
      modifies this
      ensures commands == old(commands) + [Command.ResolveQuerySet(queries, destinationOffset)]
    {
      commands := commands + [Command.ResolveQuerySet(queries, destinationOffset)];
    }

    method CopyBufferToBuffer(sourceOffset: nat, destinationOffset: nat, size: nat)
      modifies this
      ensures commands == old(commands) + [Command.CopyBufferToBuffer(sourceOffset, destinationOffset, size)]
    {
      commands := commands + [Command.CopyBufferToBuffer(sourceOffset, destinationOffset, size)];
    }

    method Finish() returns (buffer: seq<Command>)
      ensures buffer == commands
    {
      buffer := commands;
    }
  }

  /** The query indices the commands write, in the order they are recorded. */
  function TimestampQueries(cmds: seq<Command>): seq<nat>
    decreases |cmds|
  {
    if cmds == [] then []
    else
      var here := match cmds[0]
        case WriteTimestamp(q) => [q]
        case ComputePass(ts, _, _, _) => [ts.beginningOfPass, ts.endOfPass]
        case RenderPass(ts, _, _, _, _, _) => [ts.beginningOfPass, ts.endOfPass]
        case _ => [];
      here + TimestampQueries(cmds[1..])
  }

  /** GPU-side state of one frame's timing: the query set and the resolve and
      destination buffers, one 64-bit word per 8 bytes. */
  datatype GpuMemory = GpuMemory(querySet: seq<u64>, resolveBuffer: seq<u64>, destinationBuffer: seq<u64>)

  function Zeros(n: nat): (r: seq<u64>)
    ensures |r| == n && forall i :: 0 <= i < n ==> r[i] == 0
  {
    seq(n, _ => 0)
  }

  /** A query set of `numQueries` queries with resolve and destination buffers
      of `8 * numQueries` bytes each, as `Queries::new` creates them. */
  function FreshMemory(numQueries: nat): (m: GpuMemory)
    ensures |m.querySet| == |m.resolveBuffer| == |m.destinationBuffer| == numQueries
  {
    GpuMemory(Zeros(numQueries), Zeros(numQueries), Zeros(numQueries))
  }

  /** `dst` with `values` written from index `at`; None when they do not fit,
      which wgpu reports as a validation error. */
  function Overwrite(dst: seq<u64>, at: nat, values: seq<u64>): (r: Option<seq<u64>>)
    ensures r.Some? <==> at + |values| <= |dst|
    ensures r.Some? ==> |r.value| == |dst|
    ensures r.Some? ==> forall i :: 0 <= i < |values| ==> r.value[at + i] == values[i]
    ensures r.Some? ==> forall i :: 0 <= i < |dst| && !(at <= i < at + |values|) ==> r.value[i] == dst[i]
  {
    if at + |values| <= |dst| then
      Some(seq(|dst|, i requires 0 <= i < |dst| => if at <= i < at + |values| then values[i - at] else dst[i]))
    else None
  }

  /** Writing a whole sequence from the start replaces it. */
  lemma OverwriteWhole(dst: seq<u64>, values: seq<u64>)
    requires |values| == |dst|
    ensures Overwrite(dst, 0, values) == Some(values)
  {
    assert Overwrite(dst, 0, values).value == values;
  }

  /** The query set with `time` written to query `query`; None when the
      query is outside the set. */
  function Stamped(mem: GpuMemory, query: nat, time: u64): Option<GpuMemory>
  {
    if query < |mem.querySet| then Some(mem.(querySet := mem.querySet[query := time])) else None
  }

  /** The alignment wgpu demands of a query-resolve destination offset, in bytes. */
  const QUERY_RESOLVE_BUFFER_ALIGNMENT: nat := 256

  /** Runs one command. `clock` gives the GPU time of each moment of the frame;
      `passSeen` tells whether a pass has already run, which decides whether
      an encoder-level timestamp marks the start or the end of the encoder. */
  function Step(mem: GpuMemory, cmd: Command, clock: Stamp -> u64, passSeen: bool): (r: Option<GpuMemory>)
    ensures r.Some? ==> |r.value.querySet| == |mem.querySet| && |r.value.resolveBuffer| == |mem.resolveBuffer|
                        && |r.value.destinationBuffer| == |mem.destinationBuffer|
  {
    match cmd
    case WriteTimestamp(q) =>
      Stamped(mem, q, clock(if passSeen then EncoderEnd else EncoderStart))
    case ComputePass(ts, _, _, _) =>
      (match Stamped(mem, ts.beginningOfPass, clock(ComputeStart))
       case None => None
       case Some(m) => Stamped(m, ts.endOfPass, clock(ComputeEnd)))
    case RenderPass(ts, _, _, _, _, _) =>
      (match Stamped(mem, ts.beginningOfPass, clock(RenderStart))
       case None => None
       case Some(m) => Stamped(m, ts.endOfPass, clock(RenderEnd)))
    case ResolveQuerySet(qs, offset) =>
      if qs.start <= qs.end <= |mem.querySet| && offset % QUERY_RESOLVE_BUFFER_ALIGNMENT == 0 then
        (match Overwrite(mem.resolveBuffer, offset / 8, mem.querySet[qs.start..qs.end])
         case None => None
         case Some(rb) => Some(mem.(resolveBuffer := rb)))
      else None
    case CopyBufferToBuffer(src, dst, size) =>
      if src % 8 == 0 && dst % 8 == 0 && size % 8 == 0 && src / 8 + size / 8 <= |mem.resolveBuffer| then
        (match Overwrite(mem.destinationBuffer, dst / 8, mem.resolveBuffer[src / 8..src / 8 + size / 8])
         case None => None
         case Some(db) => Some(mem.(destinationBuffer := db)))
      else None
  }

  lemma StepWriteTimestamp(mem: GpuMemory, query: nat, clock: Stamp -> u64, passSeen: bool)
    requires query < |mem.querySet|
    ensures Step(mem, WriteTimestamp(query), clock, passSeen)
            == Some(mem.(querySet := mem.querySet[query := clock(if passSeen then EncoderEnd else EncoderStart)]))
  {
  }

  /** A pass whose two queries lie in the query set writes its start and its
      end moment there. */
  lemma StepPass(mem: GpuMemory, pass: Command, clock: Stamp -> u64, passSeen: bool)
    requires pass.IsPass()
    requires pass.timestamps.beginningOfPass < |mem.querySet| && pass.timestamps.endOfPass < |mem.querySet|
    ensures var (start, end) := if pass.ComputePass? then (ComputeStart, ComputeEnd) else (RenderStart, RenderEnd);
            Step(mem, pass, clock, passSeen)
            == Some(mem.(querySet := mem.querySet[pass.timestamps.beginningOfPass := clock(start)]
                                                 [pass.timestamps.endOfPass := clock(end)]))
  {
  }

  /** Resolving every query into an equally long resolve buffer copies the
      query set there. */
  lemma StepResolveAll(mem: GpuMemory, clock: Stamp -> u64, passSeen: bool)
    requires |mem.resolveBuffer| == |mem.querySet|
    ensures Step(mem, ResolveQuerySet(Range(0, |mem.querySet|), 0), clock, passSeen)
            == Some(mem.(resolveBuffer := mem.querySet))
  {
    assert mem.querySet[0..|mem.querySet|] == mem.querySet;
    OverwriteWhole(mem.resolveBuffer, mem.querySet);
  }

  /** Copying the whole resolve buffer into an equally long destination
      buffer duplicates it there. */
  lemma StepCopyAll(mem: GpuMemory, clock: Stamp -> u64, passSeen: bool)
    requires |mem.destinationBuffer| == |mem.resolveBuffer|
    ensures Step(mem, CopyBufferToBuffer(0, 0, 8 * |mem.resolveBuffer|), clock, passSeen)
            == Some(mem.(destinationBuffer := mem.resolveBuffer))
  {
    assert mem.resolveBuffer[0..8 * |mem.resolveBuffer| / 8] == mem.resolveBuffer;
    OverwriteWhole(mem.destinationBuffer, mem.resolveBuffer);
  }

  /** Runs a submitted command buffer; None when a command fails validation. */
  function Execute(cmds: seq<Command>, clock: Stamp -> u64, mem: GpuMemory, passSeen: bool): (r: Option<GpuMemory>)
    ensures r.Some? ==> |r.value.querySet| == |mem.querySet| && |r.value.resolveBuffer| == |mem.resolveBuffer|
                        && |r.value.destinationBuffer| == |mem.destinationBuffer|
    decreases |cmds|
  {
    if cmds == [] then Some(mem)
    else
      match Step(mem, cmds[0], clock, passSeen)
      case None => None
      case Some(m) => Execute(cmds[1..], clock, m, passSeen || cmds[0].IsPass())
  }
}
