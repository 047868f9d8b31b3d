/** The ray tracer's GPU-resident state and its frame: which buffer each
    operation writes, how the buffers are sized, and the commands one frame
    records, with the timestamp queries each of them writes. */
module Raytracer {
  import opened Widths
  import opened Gpu
  import opened GpuTiming
  import opened GpuStructs

  /** The high-level camera pose; its fields are floating point. */
  type Camera(==)
  /** Scene records uploaded as they are: spheres (in the order the BVH build
      leaves them), materials and flattened BVH nodes. */
  type Sphere(==)
  type Material(==)
  type BvhNode(==)
  /** The per-frame record written to the frame buffer. */
  type GpuFrameBuffer(==)

  datatype Scene = Scene(spheres: seq<Sphere>, materials: seq<Material>, bvhNodes: seq<BvhNode>)

  /** `GPUCamera::new(camera, imageSize)`, kept as the pair it is derived from:
      the floating-point derivation of the basis and pixel grid is not
      modelled. */
  datatype GpuCamera = GpuCamera(camera: Camera, imageSize: (u32, u32))

  /** The camera and the current viewport, as `RenderParameters` provides them. */
  datatype RenderParameters = RenderParameters(camera: Camera, viewport: (u32, u32))

  /** One `[f32; 3]` pixel of the accumulation image. */
  datatype Rgb = Rgb(r: real, g: real, b: real)

  datatype Usage = Storage | Uniform

  /** What a GPU buffer holds. `Unwritten(bytes)` is a buffer created with a
      size and no contents. */
  datatype BufferData =
    | Pixels(pixels: seq<Rgb>)
    | Unwritten(bytes: nat)
    | Frame(frame: GpuFrameBuffer)
    | Spheres(spheres: seq<Sphere>)
    | Materials(materials: seq<Material>)
    | BvhNodes(nodes: seq<BvhNode>)
    | CameraBlock(block: GpuCamera)
    | Sampling(params: GpuSamplingParameters)

  /** A GPU buffer with its usage and binding slot; queue writes replace its
      contents. */
  class GpuBuffer {
    const usage: Usage
    const binding: nat
    var data: BufferData

    constructor (usage: Usage, binding: nat, data: BufferData)
      ensures this.usage == usage && this.binding == binding && this.data == data
    {
      this.usage := usage;
      this.binding := binding;
      this.data := data;
    }

    /** `queue_for_gpu`: the write is taken to land before the next submission. */
    method QueueForGpu(data: BufferData)
      modifies this
      ensures this.data == data
    {
      this.data := data;
    }
  }

  /** The frame buffer's size in bytes. */
  const FRAME_BUFFER_BYTES: nat := 16

  /** The commands `render` records for a frame of `size` work groups: an
      encoder timestamp, the compute pass, the display pass, the closing
      encoder timestamp, then the resolve of all six queries and the copy of
      the 48-byte resolve buffer. Each moment is written to the slot the
      decoder reads it from. */
  function FrameCommands(size: (u32, u32)): seq<Command>
  {
    [ WriteTimestamp(SlotOf(EncoderStart)),
      ComputePass(PassTimestampWrites(SlotOf(ComputeStart), SlotOf(ComputeEnd)), ComputeShaderPipeline,
                  [ImageBindGroup, SceneBindGroup, ParametersBindGroup], (size.0, size.1, 1)),
      RenderPass(PassTimestampWrites(SlotOf(RenderStart), SlotOf(RenderEnd)), Green, DisplayPipeline,
                 [DisplayBindGroup], Range(0, 6), Range(0, 1)),
      WriteTimestamp(SlotOf(EncoderEnd)),
      ResolveQuerySet(Range(0, NUM_QUERIES as nat), 0),
      CopyBufferToBuffer(0, 0, 8 * NUM_QUERIES) ]
  }

  datatype RenderError = SurfaceTextureUnavailable

  class RayTracer {
    const imageBuffer: GpuBuffer
    const frameBuffer: GpuBuffer
    const spheresBuffer: GpuBuffer
    const materialsBuffer: GpuBuffer
    const bvhBuffer: GpuBuffer
    const cameraBuffer: GpuBuffer
    const samplingParametersBuffer: GpuBuffer

    /** The seven buffers are distinct objects. */
    ghost predicate Valid()
      reads this
    {
      imageBuffer !in {frameBuffer, spheresBuffer, materialsBuffer, bvhBuffer, cameraBuffer, samplingParametersBuffer}
      && frameBuffer !in {spheresBuffer, materialsBuffer, bvhBuffer, cameraBuffer, samplingParametersBuffer}
      && spheresBuffer !in {materialsBuffer, bvhBuffer, cameraBuffer, samplingParametersBuffer}
      && materialsBuffer !in {bvhBuffer, cameraBuffer, samplingParametersBuffer}
      && bvhBuffer !in {cameraBuffer, samplingParametersBuffer}
      && cameraBuffer != samplingParametersBuffer
    }

    /** The buffers each bind group exposes, by binding slot. */
    function BindGroupBuffers(g: BindGroup): seq<GpuBuffer>
      reads this
    {
      match g
      case ImageBindGroup => [imageBuffer, frameBuffer]
      case SceneBindGroup => [spheresBuffer, materialsBuffer, bvhBuffer]
      case ParametersBindGroup => [cameraBuffer, samplingParametersBuffer]
      case DisplayBindGroup => [imageBuffer, frameBuffer]
    }

    /** `RayTracer::new`, given the scene after its BVH build, the initial
        camera and the default sampling parameters. The image buffer holds one
        zero pixel per pixel of the largest window, whatever the current
        window size; the camera block is derived for the current window. */
    constructor (maxWindowSize: u32, windowSize: (u32, u32), scene: Scene, camera: Camera,
                 sampling: SamplingParameters)
      ensures Valid()
      ensures fresh(imageBuffer) && fresh(frameBuffer) && fresh(spheresBuffer) && fresh(materialsBuffer)
              && fresh(bvhBuffer) && fresh(cameraBuffer) && fresh(samplingParametersBuffer)
      ensures imageBuffer.data == Pixels(seq(maxWindowSize, _ => Rgb(0.0, 0.0, 0.0)))
      ensures imageBuffer.usage == Storage && imageBuffer.binding == 0
      ensures frameBuffer.data == Unwritten(FRAME_BUFFER_BYTES) && frameBuffer.usage == Uniform && frameBuffer.binding == 1
      ensures spheresBuffer.data == Spheres(scene.spheres) && spheresBuffer.usage == Storage && spheresBuffer.binding == 0
      ensures materialsBuffer.data == Materials(scene.materials) && materialsBuffer.usage == Storage
              && materialsBuffer.binding == 1
      ensures bvhBuffer.data == BvhNodes(scene.bvhNodes) && bvhBuffer.usage == Storage && bvhBuffer.binding == 2
      ensures cameraBuffer.data == CameraBlock(GpuCamera(camera, windowSize)) && cameraBuffer.usage == Uniform
              && cameraBuffer.binding == 0
      ensures samplingParametersBuffer.data == Sampling(GetGpuSamplingParams(sampling))
              && samplingParametersBuffer.usage == Uniform && samplingParametersBuffer.binding == 1
    {
      var image: seq<Rgb> := seq(maxWindowSize, _ => Rgb(0.0, 0.0, 0.0));
      imageBuffer := new GpuBuffer(Storage, 0, Pixels(image));
      frameBuffer := new GpuBuffer(Uniform, 1, Unwritten(FRAME_BUFFER_BYTES));
      spheresBuffer := new GpuBuffer(Storage, 0, Spheres(scene.spheres));
      materialsBuffer := new GpuBuffer(Storage, 1, Materials(scene.materials));
      bvhBuffer := new GpuBuffer(Storage, 2, BvhNodes(scene.bvhNodes));
      cameraBuffer := new GpuBuffer(Uniform, 0, CameraBlock(GpuCamera(camera, windowSize)));
      samplingParametersBuffer := new GpuBuffer(Uniform, 1, Sampling(GetGpuSamplingParams(sampling)));
    }

    /** `RayTracer::resize`: rewrites the camera block for the current
        viewport. No buffer is reallocated (the buffer fields are constant)
        and no other buffer changes. */
    method Resize(renderParameters: RenderParameters)
      requires Valid()
      modifies cameraBuffer
      ensures cameraBuffer.data == CameraBlock(GpuCamera(renderParameters.camera, renderParameters.viewport))
      ensures unchanged(imageBuffer, frameBuffer, spheresBuffer, materialsBuffer, bvhBuffer, samplingParametersBuffer)
    {
      var sceneParameters := GpuCamera(renderParameters.camera, renderParameters.viewport);
      cameraBuffer.QueueForGpu(CameraBlock(sceneParameters));
    }

    /** `RayTracer::input`: consumes no event. */
    method Input() returns (consumed: bool)
      ensures !consumed
    {
      consumed := false;
    }

    /** `RayTracer::update`: writes the frame record into the frame buffer and
        changes no other buffer. */
    method Update(frame: GpuFrameBuffer)
      requires Valid()
      modifies frameBuffer
      ensures frameBuffer.data == Frame(frame)
      ensures unchanged(imageBuffer, spheresBuffer, materialsBuffer, bvhBuffer, cameraBuffer, samplingParametersBuffer)
    {
      frameBuffer.QueueForGpu(Frame(frame));
    }

    /** `RayTracer::render`. `texture` is the outcome of acquiring the surface
        texture; a failure panics before anything is encoded. Otherwise the
        frame's commands are submitted and the texture presented, and the
        frame's `Queries` come back with all six queries handed out. */
    method Render(texture: Option<SurfaceTexture>, size: (u32, u32))
      returns (r: Result<Queries, RenderError>, effects: seq<Effect>)
      requires Valid()
      ensures texture.None? ==> r == Err(SurfaceTextureUnavailable) && effects == []
      ensures texture.Some? ==> r.Ok? && fresh(r.value)
      ensures texture.Some? ==> r.value.numQueries == NUM_QUERIES && r.value.nextUnusedQuery as int == NUM_QUERIES as int
      ensures texture.Some? ==> effects == [Submit(FrameCommands(size)), Present(texture.value)]
    {
      if texture.None? {
        return Err(SurfaceTextureUnavailable), [];
      }
      var output := texture.value;
      var encoder := new CommandEncoder();

      var queries := new Queries(NUM_QUERIES);
      encoder.WriteTimestamp(queries.nextUnusedQuery);
      queries.nextUnusedQuery := queries.nextUnusedQuery + 1;

      var computeWrites := PassTimestampWrites(queries.nextUnusedQuery, queries.nextUnusedQuery + 1);
      queries.nextUnusedQuery := queries.nextUnusedQuery + 2;
      var computePipeline := ComputeShaderPipeline;
      var computeBindGroups := [];
      computeBindGroups := computeBindGroups + [ImageBindGroup];
      computeBindGroups := computeBindGroups + [SceneBindGroup];
      computeBindGroups := computeBindGroups + [ParametersBindGroup];
      assert computeBindGroups == [ImageBindGroup, SceneBindGroup, ParametersBindGroup];
      encoder.RecordPass(ComputePass(computeWrites, computePipeline, computeBindGroups, (size.0, size.1, 1)));

      var displayWrites := PassTimestampWrites(queries.nextUnusedQuery, queries.nextUnusedQuery + 1);
      queries.nextUnusedQuery := queries.nextUnusedQuery + 2;
      var displayPipeline := DisplayPipeline;
      var displayBindGroups := [];
      displayBindGroups := displayBindGroups + [DisplayBindGroup];
      assert displayBindGroups == [DisplayBindGroup];
      encoder.RecordPass(RenderPass(displayWrites, Green, displayPipeline, displayBindGroups, Range(0, 6), Range(0, 1)));

      encoder.WriteTimestamp(queries.nextUnusedQuery);
      queries.nextUnusedQuery := queries.nextUnusedQuery + 1;

      queries.Resolve(encoder);
      var commandBuffer := encoder.Finish();
      assert commandBuffer == FrameCommands(size);

      effects := [Submit(commandBuffer), Present(output)];
      r := Ok(queries);
    }

    /** A whole frame's timing round trip on the objects `render` returns:
        the submitted commands run on the memory of the returned `Queries`,
        whose readback `from_raw_results` decodes into every moment's GPU
        time. */
    method RenderThenDecodeTimings(texture: SurfaceTexture, size: (u32, u32), clock: Stamp -> u64)
      returns (results: QueryResults)
      requires Valid()
      ensures results.WellFormed() && forall s :: results.Reported(s) == clock(s)
    {
      var r, effects := Render(Some(texture), size);
      var queries := r.value;
      FrameTimestampsRoundTrip(size, clock);
      var mem := Execute(effects[0].commands, clock, queries.Memory(), false);
      var raw := Readback(mem.value, queries.numQueries as nat);
      var decoded, _ := FromRawResults(raw);
      results := decoded.value;
    }

    /** The display pass reads the image buffer that the compute pass writes,
        and is recorded after it in the same command buffer. */
    lemma DisplayReadsComputedImage(size: (u32, u32))
      ensures var cmds := FrameCommands(size);
              cmds[1].ComputePass? && cmds[2].RenderPass?
              && imageBuffer == BindGroupBuffers(cmds[1].bindGroups[0])[0]
              && imageBuffer == BindGroupBuffers(cmds[2].bindGroups[0])[0]
    {
    }
  }

  /** The frame writes six timestamp queries, to indices 0 to 5 in the order
      it records them: all distinct and all inside the query set. */
  lemma FrameQueriesInOrder(size: (u32, u32))
    ensures TimestampQueries(FrameCommands(size)) == [0, 1, 2, 3, 4, 5]
  {
    var cmds := FrameCommands(size);
    assert cmds[1..][1..][1..][1..][1..][1..] == [];
    assert TimestampQueries(cmds[1..][1..][1..][1..][1..]) == [];
    assert TimestampQueries(cmds[1..][1..][1..][1..]) == [];
    assert TimestampQueries(cmds[1..][1..][1..]) == [5];
    assert TimestampQueries(cmds[1..][1..]) == [3, 4, 5];
    assert TimestampQueries(cmds[1..]) == [1, 2, 3, 4, 5];
  }

  /** The GPU memory after running the frame: every moment of the frame
      written to its slot in the query set, resolved and copied to the
      destination buffer. */
  function FilledSlots(clock: Stamp -> u64): seq<u64>
  {
    [clock(EncoderStart), clock(ComputeStart), clock(ComputeEnd), clock(RenderStart), clock(RenderEnd),
     clock(EncoderEnd)]
  }

  /** Running the frame's commands on a fresh query set leaves each moment's
      GPU time in its slot of the destination buffer. */
  lemma FrameExecution(size: (u32, u32), clock: Stamp -> u64)
    ensures var r := Execute(FrameCommands(size), clock, FreshMemory(NUM_QUERIES as nat), false);
            r.Some? && r.value.destinationBuffer == FilledSlots(clock)
  {
    var cmds := FrameCommands(size);
    var t: seq<u64> := FilledSlots(clock);
    var m0 := FreshMemory(6);
    var m1 := m0.(querySet := m0.querySet[0 := t[0]]);
    var m2 := m1.(querySet := m1.querySet[1 := t[1]]);
    var m3 := m2.(querySet := m2.querySet[2 := t[2]]);
    var m4 := m3.(querySet := m3.querySet[3 := t[3]]);
    var m5 := m4.(querySet := m4.querySet[4 := t[4]]);
    var m6 := m5.(querySet := m5.querySet[5 := t[5]]);
    assert m6.querySet == t;
    var m7 := m6.(resolveBuffer := t);
    var m8 := m7.(destinationBuffer := t);
    assert Step(m0, cmds[0], clock, false) == Some(m1) by {
      StepWriteTimestamp(m0, 0, clock, false);
    }
    assert Step(m1, cmds[1], clock, false) == Some(m3) by {
      StepPass(m1, cmds[1], clock, false);
    }
    assert Step(m3, cmds[2], clock, true) == Some(m5) by {
      StepPass(m3, cmds[2], clock, true);
    }
    assert Step(m5, cmds[3], clock, true) == Some(m6) by {
      StepWriteTimestamp(m5, 5, clock, true);
    }
    assert Step(m6, cmds[4], clock, true) == Some(m7) by {
      StepResolveAll(m6, clock, true);
    }
    assert Step(m7, cmds[5], clock, true) == Some(m8) by {
      StepCopyAll(m7, clock, true);
    }
    ExecuteFrame(cmds, clock, [m0, m1, m3, m5, m6, m7, m8]);
  }

  /** Running six commands whose steps lead from `mems[k]` to `mems[k + 1]`,
      starting before any pass, ends in `mems[6]`. */
  lemma ExecuteFrame(cmds: seq<Command>, clock: Stamp -> u64, mems: seq<GpuMemory>)
    requires |cmds| == 6 && |mems| == 7
    requires Step(mems[0], cmds[0], clock, false) == Some(mems[1])
    requires cmds[1].IsPass()
    requires forall k :: 1 <= k < 6 ==> Step(mems[k], cmds[k], clock, true) == Some(mems[k + 1])
    ensures Execute(cmds, clock, mems[0], false) == Some(mems[6])
  {
    var k := 6;
    while k > 1
      invariant 1 <= k <= 6
      invariant Execute(cmds[k..], clock, mems[k], true) == Some(mems[6])
    {
      k := k - 1;
      assert cmds[k..][1..] == cmds[k + 1..];
    }
    assert cmds[1..] == cmds[1..][..];
  }

  /** The producer and the consumer agree on the slot layout: after a frame
      is rendered and its six timestamps read back, `from_raw_results`
      reports, for every moment of the frame, the GPU time of that moment. */
  lemma FrameTimestampsRoundTrip(size: (u32, u32), clock: Stamp -> u64)
    ensures var r := Execute(FrameCommands(size), clock, FreshMemory(NUM_QUERIES as nat), false);
            r.Some?
            && var results := Decode(Readback(r.value, NUM_QUERIES as nat));
               results.Ok? && forall s :: results.value.Reported(s) == clock(s)
  {
    FrameExecution(size, clock);
    var r := Execute(FrameCommands(size), clock, FreshMemory(NUM_QUERIES as nat), false);
    var raw := Readback(r.value, NUM_QUERIES as nat);
    assert raw == FilledSlots(clock);
    forall s ensures Decode(raw).value.Reported(s) == clock(s) {
      match s
      case EncoderStart =>
      case ComputeStart =>
      case ComputeEnd =>
      case RenderStart =>
      case RenderEnd =>
      case EncoderEnd =>
    }
  }

  /** When the GPU clock does not go backwards over the frame, the three
      durations `print` reports are the true differences, and the compute
      and display passes together take no longer than the whole encoder. */
  lemma FrameDurationsNest(size: (u32, u32), clock: Stamp -> u64)
    requires clock(EncoderStart) <= clock(ComputeStart) <= clock(ComputeEnd) <= clock(RenderStart)
             <= clock(RenderEnd) <= clock(EncoderEnd)
    ensures var r := Execute(FrameCommands(size), clock, FreshMemory(NUM_QUERIES as nat), false);
            r.Some?
            && var results := Decode(Readback(r.value, NUM_QUERIES as nat));
               results.Ok?
               && PairTicks(results.value.encoderTimestamps) == clock(EncoderEnd) - clock(EncoderStart)
               && PairTicks(results.value.computeStartEndTimestamps) == clock(ComputeEnd) - clock(ComputeStart)
               && PairTicks(results.value.renderStartEndTimestamps) == clock(RenderEnd) - clock(RenderStart)
               && PairTicks(results.value.computeStartEndTimestamps) + PairTicks(results.value.renderStartEndTimestamps)
                  <= PairTicks(results.value.encoderTimestamps)
  {
    FrameTimestampsRoundTrip(size, clock);
    var r := Execute(FrameCommands(size), clock, FreshMemory(NUM_QUERIES as nat), false);
    var q := Decode(Readback(r.value, NUM_QUERIES as nat)).value;
    assert q.encoderTimestamps == [q.Reported(EncoderStart), q.Reported(EncoderEnd)];
    assert q.computeStartEndTimestamps == [q.Reported(ComputeStart), q.Reported(ComputeEnd)];
    assert q.renderStartEndTimestamps == [q.Reported(RenderStart), q.Reported(RenderEnd)];
  }
}
