# WiW ray tracer: frame bookkeeping, timestamp layout and sampling-block packing

This project models, in Dafny, the discrete core of the WiW interactive GPU ray tracer:

- **Timestamp queries** (`src/gpu_timing.rs`). `Queries` is the per-frame record that hands out
  timestamp-query indices through its `next_unused_query` counter and resolves them.
  `QueryResults::from_raw_results` decodes the six raw `u64` timestamps with a slot counter.
  It splits them into encoder, compute and render start/end pairs. `NUM_QUERIES` is 6.
- **Frame orchestration** (`src/raytracer/mod.rs`). `RayTracer` owns seven GPU buffers: image,
  frame, spheres, materials, BVH, camera and sampling parameters. `new` sizes them. `resize` and
  `update` each rewrite exactly one of them. `render` records one frame: an encoder timestamp, the
  compute pass, the display pass, a closing timestamp, then the resolve and the copy. It then
  submits the commands and presents the surface texture.
- **Sampling-parameter packing** (`src/gpu_structs.rs`). `get_gpu_sampling_params` copies five
  `u32` fields into the `repr(C)` block `GPUSamplingParameters`. The block is eight words long and
  ends in three words of zero padding.

wgpu is modelled as data. Commands are values recorded by a `CommandEncoder` object. Running a
submitted command buffer is a function (`Gpu.Execute`). It takes a GPU clock, which gives the time
of each moment of the frame. It writes the query set, the resolve buffer and the destination
buffer. The main theorem, `Raytracer.FrameTimestampsRoundTrip`, says that producer and consumer
agree. Run the commands `render` submits, read back the six timestamps and decode them. Every
moment is then reported in its own field, with its own time.

`RayTracer.BindGroupBuffers` records which buffers each bind group exposes, in binding order, from
the `entries` at `src/raytracer/mod.rs` lines 61, 94, 132 and 187-190.

Modules: `Widths` (integer widths, `Option`, `Result`), `Gpu` (the wgpu command and execution
model), `GpuTiming`, `GpuStructs`, `Raytracer`.

Behaviour a reader might expect to differ, and what the model does:

- A failed surface-texture acquisition in `render` is a panic (`unwrap`), not a skipped frame.
- `RayTracer::resize` only rewrites the camera block. It does not reconfigure the surface and it
  does not reset accumulation.
- `RayTracer::new` returns an `Option`, but every path returns `Some`. The constructor models that path.
- The compute pass always dispatches `(size.0, size.1, 1)` work groups, even for an empty scene.
- The comment at `src/gpu_timing.rs:16-22` lists "encoder end" as the second query. The code
  writes it last (index 5) and reads it last (slot 5). Producer and consumer agree on the code's
  order, and that order is the one modelled.

## Model

| member | source | states |
|---|---|---|
| `GpuTiming.SlotOf` | src/gpu_timing.rs:36-40 | each moment is read from a slot below `NUM_QUERIES` |
| `GpuTiming.SlotLayoutIsBijective` | src/gpu_timing.rs:29-40 | the six slots and the six reported moments correspond one to one, so every slot lands in exactly one output field |
| `GpuTiming.Decode` | src/gpu_timing.rs:26-47 | decoding succeeds exactly when there are `NUM_QUERIES` = 6 timestamps and fails with the actual length otherwise; each reported moment is the timestamp in that moment's slot |
| `GpuTiming.DecodeIsInjective` | src/gpu_timing.rs:26-47 | two raw vectors that decode to the same results are equal: no slot is dropped |
| `GpuTiming.GetNextSlot` | src/gpu_timing.rs:30-34 | the closure returns the timestamp under the counter and advances the counter by one |
| `GpuTiming.FromRawResults` | src/gpu_timing.rs:26-47 | the counter-driven decoder agrees with `Decode`, and so panics unless there are exactly 6 timestamps; encoder is `[t[0], t[5]]`, compute is `[t[1], t[2]]`, render is `[t[3], t[4]]`; the slots are read once each, in the order 0 to 5, and none is read when the length check fails |
| `GpuTiming.ElapsedTicks` | src/gpu_timing.rs:52 | `wrapping_sub` is total: adding its result to `start` modulo 2^64 gives `end`, and it is `end - start` when `start <= end` |
| `GpuTiming.ElapsedTicksIsUnique` | src/gpu_timing.rs:52 | no other tick count carries `start` to `end` under wrapping addition |
| `GpuTiming.Queries.constructor` | src/gpu_timing.rs:76-98 | `next_unused_query` starts at 0, `num_queries` is recorded, and the resolve and destination buffers are `8 * num_queries` bytes each |
| `GpuTiming.Queries.Memory` | src/gpu_timing.rs:83-94 | the resolve buffer holds one 8-byte timestamp per query |
| `GpuTiming.Queries.Resolve` | src/gpu_timing.rs:100-115 | appends a resolve of exactly the queries `0..next_unused_query`, which may not exceed the set, then a copy of the whole resolve buffer to the destination buffer |
| `GpuTiming.Readback` | src/gpu_timing.rs:117-134 | the readback yields `num_queries` timestamps, the start of the destination buffer |
| `Gpu.Execute` | src/raytracer/mod.rs:361 | running a submitted command buffer never changes the size of the query set, the resolve buffer or the destination buffer |
| `GpuStructs.Words` | src/gpu_structs.rs:54-63 | the `repr(C)` block is eight `u32` words: the five data fields in declaration order, then the padding |
| `GpuStructs.WordsRoundTrip` | src/gpu_structs.rs:54-63 | a block read back from its words is the same block |
| `GpuStructs.FromWordsRoundTrip` | src/gpu_structs.rs:54-63 | any eight words are the image of exactly one block |
| `GpuStructs.GetGpuSamplingParams` | src/gpu_structs.rs:67-78 | the packed block's words are `samples_per_pixel`, `num_bounces`, `samples_per_frame`, `total_samples_completed`, `frame`, each unchanged, then three zeros |
| `GpuStructs.PackThenUnpack` | src/gpu_structs.rs:70-76 | packing loses none of the five fields and always zeroes the padding |
| `GpuStructs.PackedBlocksHaveZeroPadding` | src/gpu_structs.rs:76 | the packed blocks are exactly the well-formed blocks whose padding is zero |
| `GpuStructs.U32BytesRoundTrip` | src/raytracer/mod.rs:118 | a word survives conversion to its four little-endian bytes and back |
| `GpuStructs.U32FromBytesRoundTrip` | src/raytracer/mod.rs:118 | four bytes survive conversion to a word and back |
| `GpuStructs.WordsBytesLayout` | src/raytracer/mod.rs:118 | in the byte view of a word sequence, word `k` occupies bytes `4k .. 4k+4` |
| `GpuStructs.SamplingParamsBytesLayout` | src/raytracer/mod.rs:112-119 | the uploaded sampling block is 32 bytes; each field sits at four times its position and the last 12 bytes are zero |
| `Raytracer.RayTracer.constructor` | src/raytracer/mod.rs:32-119 | the image buffer holds `max_window_size` zero RGB pixels whatever the window size; the frame buffer is 16 unwritten bytes; scene, camera (for the current window) and packed sampling blocks are uploaded; all seven buffers are fresh and distinct, with the usages and binding slots of the source |
| `Raytracer.RayTracer.Resize` | src/raytracer/mod.rs:261-270 | rewrites only the camera buffer, with the block for the current camera and viewport; no buffer is reallocated and no other buffer changes |
| `Raytracer.RayTracer.Input` | src/raytracer/mod.rs:272-288 | no window event is consumed |
| `Raytracer.RayTracer.Update` | src/raytracer/mod.rs:290-292 | writes the frame record into the frame buffer and changes no other buffer |
| `Raytracer.RayTracer.Render` | src/raytracer/mod.rs:294-365 | a failed texture acquisition panics before anything is encoded or submitted; otherwise it submits the frame's commands and then presents, and returns queries with `next_unused_query` = `NUM_QUERIES` = 6 and `num_queries` = 6; the commands are the encoder timestamp at index 0, the compute pass (queries 1 and 2, bind groups image, scene, parameters, dispatch `(size.0, size.1, 1)`), the display pass (queries 3 and 4, draw vertices `0..6`, instances `0..1`), the timestamp at index 5, the resolve and the copy; each index is the decoder's slot for that moment; the ray tracer's own state is not modified |
| `Raytracer.RayTracer.RenderThenDecodeTimings` | src/raytracer/mod.rs:294-365 | on the objects `render` itself returns: its submitted commands, run on the memory of its `Queries`, read back through `num_queries` and decoded by `from_raw_results`, report every moment with the GPU time at which it happened |
| `Raytracer.RayTracer.DisplayReadsComputedImage` | src/raytracer/mod.rs:323-354 | the display pass is recorded after the compute pass, and both bind the image buffer |
| `Raytracer.FrameQueriesInOrder` | src/raytracer/mod.rs:309-358 | the frame writes queries 0 to 5, each once and in increasing order, all below `NUM_QUERIES` |
| `Raytracer.FrameExecution` | src/raytracer/mod.rs:309-362 | running the frame's commands on a fresh query set succeeds and leaves each moment's time in that moment's slot of the destination buffer |
| `Raytracer.FrameTimestampsRoundTrip` | src/raytracer/mod.rs:309-362 | producer and consumer agree: decoding the read-back timestamps of a rendered frame reports every moment with the GPU time at which it happened |
| `Raytracer.FrameDurationsNest` | src/gpu_timing.rs:50-72 | when the GPU clock does not go backwards, the three tick counts `print` scales into milliseconds are the true differences, and compute plus display take no longer than the whole encoder |

## Left out

- `QueryResults::print`: the conversion of ticks to milliseconds uses floating point and console output. Only the tick count (`ElapsedTicks`, `PairTicks`) is modelled.
- `Queries::wait_for_results`: the asynchronous mapping and the blocking poll are I/O. Only its result is modelled (`Readback`).
- `GPUCamera::new`, `Camera` and `reflect`: floating-point geometry. The camera block is kept as the camera and image size it is derived from (`GpuCamera`).
- `RayTracer::new`: bind-group layouts, pipelines and shader modules are wgpu configuration and are not modelled. `Scene::book_one_final`, the BVH build, `Camera::book_one_final_camera` and `SamplingParameters::default` are outside this model; the constructor takes their results as parameters.
- `RayTracer::new`: the `rp.update_camera(camera)` call on the caller's `RenderParameters` is not modelled.
- `SamplingParameters`, `RenderParameters`, `GPUFrameBuffer` and `GPUBuffer` are reduced to what the core reads. `GpuStructs.SamplingParameters` keeps the five `u32` fields. `Raytracer.RenderParameters` keeps the camera and the viewport. `GpuFrameBuffer` is abstract, as are the sphere, material and BVH-node records. `Raytracer.GpuBuffer` keeps a buffer's usage, binding slot and contents, and `queue_for_gpu` (`QueueForGpu`) is taken to replace the whole contents; the promises of `Resize` and `Update` that no other buffer changes rest on that reading.
- `Raytracer.RayTracer.Update`, `Raytracer.RayTracer.Resize`: a queue write is modelled as landing at once. wgpu stages it until the next submission.
- `Gpu.Execute`: only timestamp writes, resolves and buffer copies change the modelled GPU memory. The shader work of the compute dispatch and the draw is recorded but not executed. An out-of-range query, resolve or copy makes the whole submission fail. A resolve destination offset must be a multiple of 256, as wgpu demands. The model tracks 8-byte timestamps, so it treats copy offsets and sizes that are not multiples of 8 as invalid, where wgpu asks only for multiples of 4.
- `Queries::new`: the byte sizes `8 * num_queries` are unbounded integers; a `u64` overflow of that product is not modelled. The query-set count `num_queries as _` is a narrowing cast to `u32`, and wgpu rejects a query set of more than 4096 queries; `Queries.Memory` gives a query set of `num_queries` entries for any `u64`. The only caller passes `NUM_QUERIES` = 6.
- `src/wgpu_state.rs`, `src/app.rs`, `src/main.rs`, `src/lib.rs`: device negotiation, surface configuration and the event loop are I/O and are not modelled.
- `src/scene.rs`, `src/sphere.rs`, `src/util_funcs.rs`: constant constructors, vector arithmetic and the thread-local random number generator are not modelled.
- The little-endian byte view of `bytemuck::cast_slice` assumes a little-endian host, as the GPU upload does.
