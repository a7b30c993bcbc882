# wasi-webgpu host bridge — Dafny model

This project models the host side of the `wasi-webgpu` example runtime: the
Rust code that answers a WebAssembly guest's graphics calls. Every host entry
point looks the guest's handles up in the runtime's resource table, calls the
native `wgpu_core` backend, and then registers the result (`push`), registers
it under a parent (`push_child`) or consumes a handle (`delete`). A second,
small part is the pixel frame-buffer interface (`length`, `get`, `set` and
`from_graphics_buffer`).

Layout:

- `outcomes.dfy` — `Option`, `Result` and `Outcome`. `Outcome` is either
  `Ok(v)` or `Abort`. Every `unwrap`, `expect` or `panic!` of the source
  becomes `Abort`, and the model promises nothing about the state after one.
- `payloads.dfy` — what a table entry holds: bare native ids, and the
  `Device`, `Pipeline` and `Buffer` records. It also holds the recorded
  compute and render passes, timers, feature sets, graphics-context buffers
  and frame buffers. It also defines the native calls whose arguments the
  model logs.
- `resource_table.dfy` — the resource table: a map from handles to
  `Entry(payload, owner)` plus a handle counter. The table belongs to the
  wasmtime runtime and its code is not part of this model. Its assumed
  contract is stated instead:
  - `push` returns a handle that is not live;
  - `push_child` fails when the parent is not live;
  - typed `get`, `get_mut` and `delete` fail on a handle that is not live or
    that holds a payload of another type;
  - `delete` also fails on an entry that still has live children.

  The typed lookups rest on one more assumption: the Rust types bound to the
  guest's resource types (`main.rs:62-83`) are pairwise distinct, so that,
  for example, a command encoder's entry is never taken for a command
  buffer's (`main.rs:69` and `main.rs:74`). Each of them is a separate
  `Kind` in the model.
- `webgpu.dfy` — the pure helpers `core_result` and `map_callback`, the
  range computation of `map_async`, and the sequential deletion that
  `submit` performs (`ConsumeAll`) with its lemmas.
- `webgpu_host.dfy` — class `Host`: the table plus the native side. The
  native side is a counter of fresh native ids, a log of native calls, and
  the bytes of every native buffer. What each native call reports is a
  parameter of the entry point that makes it. `Host.Valid` says four
  things. Only devices and adapters own children. Every native id held in
  the table was handed out already. Every native buffer's id was handed
  out already. The table's own invariant holds.
- `frame_buffer.dfy` — the frame-buffer entry points.
- `scenarios.dfy` — sequences of calls and what they promise together.

Three facts about the source shape the model:

- `begin_render_pass` and `begin_compute_pass` register the pass with a
  plain `push`, not as a child of the encoder (`webgpu/mod.rs:819`,
  `webgpu/mod.rs:856`).
- Both `end`s run the pass against whatever encoder handle the guest passes
  (`webgpu/mod.rs:1016-1019`, `webgpu/mod.rs:1367-1370`). They do not compare
  it with the encoder the pass was begun on.
- No error is returned to the guest as a typed value. Every failure panics.

## Model

| member | source | states |
|---|---|---|
| Webgpu.CoreResult | example-runtime/src/webgpu/mod.rs:2275-2282 | the result is an error exactly when the native call reported one, and then it carries that error; otherwise it carries the id |
| Webgpu.MapCallback | example-runtime/src/webgpu/mod.rs:15-19 | the callback panics exactly when the map status is a failure |
| Webgpu.MapRange | example-runtime/src/webgpu/mod.rs:1848 | the range succeeds only when offset and size are both present and their sum fits in 64 bits; then it starts at the offset and spans exactly size bytes |
| Webgpu.ConsumeAll | example-runtime/src/webgpu/mod.rs:744-747 | deleting a list of command buffers one after another, in list order; on success it hands back one native id per listed handle |
| Webgpu.ConsumeAllPrefixAborts | example-runtime/src/webgpu/mod.rs:744-747 | once deleting a prefix of the list panics, deleting the whole list panics |
| Webgpu.ConsumeAllMeaning | example-runtime/src/webgpu/mod.rs:744-747 | the deletions all succeed exactly when every listed handle is a live command buffer and no handle is listed twice; then exactly the listed handles are gone and the ids come out in list order |
| Webgpu.RepeatedHandleAborts | example-runtime/src/webgpu/mod.rs:744-747 | a handle listed twice makes the deletions panic |
| Webgpu.DeadHandleAborts | example-runtime/src/webgpu/mod.rs:744-747 | a handle that is not live makes the deletions panic |
| Webgpu.ResubmissionAborts | example-runtime/src/webgpu/mod.rs:744-747 | after a successful round of deletions, any list that repeats one of the handles panics |
| ResourceTables.Take | example-runtime/src/webgpu/mod.rs:827 | a typed delete succeeds exactly when the handle is live with the expected type and owns no live entry; then only that entry is removed and its payload is handed back |
| ResourceTables.ResourceTable.Push | example-runtime/src/webgpu/mod.rs:135 | `push` adds exactly one entry, without owner, under a handle that was not live |
| ResourceTables.ResourceTable.PushChild | example-runtime/src/webgpu/mod.rs:115 | `push_child` succeeds exactly when the parent is live, and then adds exactly one entry owned by it; on failure nothing changes |
| ResourceTables.ResourceTable.Get | example-runtime/src/webgpu/mod.rs:101 | a typed `get` succeeds exactly when the handle is live with the expected type, and returns the stored payload |
| ResourceTables.ResourceTable.Store | example-runtime/src/webgpu/mod.rs:1350 | a write through `get_mut` replaces that entry's payload, keeps its owner, and changes no other entry |
| ResourceTables.ResourceTable.Delete | example-runtime/src/webgpu/mod.rs:827 | `delete` has exactly the effect of `Take`, and changes nothing when it fails |
| WebgpuHost.Host.NativeCreate | example-runtime/src/webgpu/mod.rs:103-113 | `core_result(..).unwrap()` on a native creation call succeeds exactly when the backend reports no error, with an id no live entry holds and no native buffer uses |
| WebgpuHost.Host.Consume | example-runtime/src/webgpu/mod.rs:827 | deleting an entry that owns no children succeeds exactly when it is live with the expected type, and removes only that entry |
| WebgpuHost.Host.Record | example-runtime/src/webgpu/mod.rs:1350-1351 | recording into a pass succeeds exactly when the pass is live with the expected type, and appends one command to it and changes nothing else |
| WebgpuHost.Host.GetGpu | example-runtime/src/webgpu/mod.rs:49-51 | the GPU handle is always 0 |
| WebgpuHost.Host.Queue | example-runtime/src/webgpu/mod.rs:168-170 | the queue handle is the device's own handle |
| WebgpuHost.Host.Drop | example-runtime/src/webgpu/mod.rs:1701-1790 | the drop handler of a render pass deletes it and panics when it is not live; the handlers of pipeline layouts, bind-group layouts, samplers and feature sets are `todo!()` and panic; every other handler succeeds; apart from the render pass, no drop changes the table |
| WebgpuHost.Host.NewTimer | example-runtime/src/webgpu/mod.rs:52-62 | registers exactly one timer, started at the given clock reading, under a handle that was not live |
| WebgpuHost.Host.Tick | example-runtime/src/webgpu/mod.rs:68-73 | succeeds exactly when the timer is live, and leaves the stored timer unchanged, because it restarts a copy |
| WebgpuHost.Host.Tock | example-runtime/src/webgpu/mod.rs:75-79 | succeeds exactly when the timer is live, and changes nothing |
| WebgpuHost.Host.RequestAdapter | example-runtime/src/webgpu/mod.rs:1898-1911 | succeeds exactly when the backend finds an adapter, and registers its fresh id without a parent |
| WebgpuHost.Host.RequestDevice | example-runtime/src/webgpu/mod.rs:672-703 | succeeds exactly when the adapter is live and the backend reports no error; registers a device with a fresh id and the adapter's id, as a child of the adapter |
| WebgpuHost.Host.CreateCommandEncoder | example-runtime/src/webgpu/mod.rs:96-116 | succeeds exactly when the device is live and the backend reports no error; registers the fresh encoder as a child of the device |
| WebgpuHost.Host.CreateShaderModule | example-runtime/src/webgpu/mod.rs:118-136 | as for the encoder, but registered without a parent |
| WebgpuHost.Host.CreateRenderPipeline | example-runtime/src/webgpu/mod.rs:138-166 | as for the encoder: registered as a child of the device |
| WebgpuHost.Host.Features | example-runtime/src/webgpu/mod.rs:172-182 | succeeds exactly when the device is live and the backend answers; registers the reported feature set without a parent |
| WebgpuHost.Host.CreateBuffer | example-runtime/src/webgpu/mod.rs:195-238 | succeeds exactly when the device is live, creation succeeds and, for non-empty initial data, the mapped range is granted and fits the buffer. The first n bytes of the new native buffer are the data and the rest are untouched zeros. The entry's `dev` is the creating device's id. No other native buffer changes |
| WebgpuHost.Host.CreateTexture | example-runtime/src/webgpu/mod.rs:240-254 | registered without a parent |
| WebgpuHost.Host.CreateSampler | example-runtime/src/webgpu/mod.rs:256-273 | also panics when the optional descriptor is absent; registered without a parent |
| WebgpuHost.Host.CreateBindGroupLayout | example-runtime/src/webgpu/mod.rs:283-301 | registered without a parent |
| WebgpuHost.Host.CreatePipelineLayout | example-runtime/src/webgpu/mod.rs:303-321 | registered without a parent |
| WebgpuHost.Host.CreateBindGroup | example-runtime/src/webgpu/mod.rs:323-338 | registered without a parent |
| WebgpuHost.Host.CreateComputePipeline | example-runtime/src/webgpu/mod.rs:340-379 | registers a pipeline with a fresh id and the device's id, as a child of the device |
| WebgpuHost.Host.GetBindGroupLayout | example-runtime/src/webgpu/mod.rs:1684-1699 | succeeds exactly when the compute pipeline is live and the backend reports no error; registers the layout without a parent |
| WebgpuHost.Host.TextureFromGraphicsBuffer | example-runtime/src/webgpu/mod.rs:460-470 | always deletes the graphics buffer when it is live; registers the texture it carries, or panics when it carries a pixel buffer |
| WebgpuHost.Host.CreateView | example-runtime/src/webgpu/mod.rs:472-489 | succeeds exactly when the texture is live and the backend reports no error; registers the view without a parent |
| WebgpuHost.Host.BeginComputePass | example-runtime/src/webgpu/mod.rs:844-857 | succeeds exactly when the encoder is live; registers an empty compute pass for the encoder's id, without a parent |
| WebgpuHost.Host.BeginRenderPass | example-runtime/src/webgpu/mod.rs:809-820 | the same for a render pass |
| WebgpuHost.Host.Finish | example-runtime/src/webgpu/mod.rs:822-838 | succeeds exactly when the encoder is live and the backend reports no error; removes the encoder and adds exactly one command buffer with an id no earlier entry held |
| WebgpuHost.Host.CopyBufferToBuffer | example-runtime/src/webgpu/mod.rs:859-883 | succeeds exactly when the encoder and both buffers are live, whatever the backend reports; issues exactly one copy with those buffers' ids |
| WebgpuHost.Host.Submit | example-runtime/src/webgpu/mod.rs:739-755 | succeeds exactly when every listed handle is a distinct live command buffer, the queue is a live device and the backend accepts; removes exactly the listed handles and hands their ids to the device's queue in list order |
| WebgpuHost.Host.RenderSetPipeline | example-runtime/src/webgpu/mod.rs:977-986 | succeeds exactly when pipeline and pass are live; appends the pipeline's id to the pass and changes nothing else |
| WebgpuHost.Host.Draw | example-runtime/src/webgpu/mod.rs:988-1007 | appends the draw with the guest's four counts to the pass |
| WebgpuHost.Host.EndRenderPass | example-runtime/src/webgpu/mod.rs:1009-1022 | removes the pass and leaves the encoder live and unchanged; the pass's commands run against that encoder's id |
| WebgpuHost.Host.DropRenderPass | example-runtime/src/webgpu/mod.rs:1024-1027 | deletes the pass, and panics when it is no longer live |
| WebgpuHost.Host.ComputeSetPipeline | example-runtime/src/webgpu/mod.rs:1332-1341 | appends the compute pipeline's id to the pass |
| WebgpuHost.Host.ComputeSetBindGroup | example-runtime/src/webgpu/mod.rs:1415-1431 | appends the bind group's id at the given index; the dynamic offsets play no part |
| WebgpuHost.Host.DispatchWorkgroups | example-runtime/src/webgpu/mod.rs:1343-1353 | always records the counts (x, 1, 1), whatever y and z the guest passes |
| WebgpuHost.Host.EndComputePass | example-runtime/src/webgpu/mod.rs:1364-1374 | removes the pass and leaves the encoder live and unchanged; the pass's commands run against that encoder's id |
| WebgpuHost.Host.Clone | example-runtime/src/webgpu/mod.rs:1793-1806 | adds one entry with the same native buffer and device, leaves the original entry unchanged and creates no native buffer |
| WebgpuHost.Host.MapAsync | example-runtime/src/webgpu/mod.rs:1831-1861 | panics unless offset and size are both present; requests [offset, offset+size) for reading whatever the mode says, then waits on the buffer's device; any map failure panics |
| FrameBuffers.TruncateToU32 | example-runtime/src/frame_buffer.rs:76 | the cast keeps the value exactly when it fits in 32 bits |
| FrameBuffers.FromGraphicsBuffer | example-runtime/src/frame_buffer.rs:61-71 | always deletes the graphics buffer when it is live; registers a frame buffer with its pixels only when it holds the pixel variant, and panics otherwise |
| FrameBuffers.Length | example-runtime/src/frame_buffer.rs:73-77 | the pixel count, truncated to 32 bits; the table is not modified |
| FrameBuffers.Get | example-runtime/src/frame_buffer.rs:79-90 | succeeds exactly when the index is below the length, and returns that pixel |
| FrameBuffers.Set | example-runtime/src/frame_buffer.rs:92-96 | succeeds exactly when the index is below the length; only that pixel of that entry changes |
| Scenarios.FinishTwice | example-runtime/src/webgpu/mod.rs:827 | a second `finish` on an encoder that was finished panics |
| Scenarios.SubmitTwice | example-runtime/src/webgpu/mod.rs:744-747 | submitting the same non-empty list twice panics the second time |
| Scenarios.EndThenDropRenderPass | example-runtime/src/webgpu/mod.rs:1016-1026 | dropping a render pass that was ended panics |
| Scenarios.ComputeRoundTrip | example-runtime/src/webgpu/mod.rs:96-116 | encoder, pass, dispatch, end, finish and submit on a live device all succeed; the backend receives the dispatch (x, 1, 1) and then one command buffer on the device's queue |
| Scenarios.SetThenGet | example-runtime/src/frame_buffer.rs:79-96 | after `set(i, v)`, `get(i)` returns v and `get` at any other index sees the old pixel |
| Scenarios.SetKeepsLength | example-runtime/src/frame_buffer.rs:73-96 | `set` does not change what `length` reports |

## Left out

- The resource table's own code (wasmtime) is not part of this model; only its assumed contract is.
- Handle width: the table's handles are 32-bit in wasmtime; the model's handles are unbounded and a full table is not modelled.
- `ResourceTables.ResourceTable.Push` does not promise which handle it picks. wasmtime may reuse the slot of a deleted entry, so no contract says a new handle differs from one just deleted.
- Descriptor translation (`to_core` and the enum conversions) lives in modules that are not part of this model. A resource's `to_core` is modelled as a typed lookup that panics on failure. Descriptor contents are not modelled. So the success conditions of WebgpuHost.Host.CreateRenderPipeline, WebgpuHost.Host.CreatePipelineLayout, WebgpuHost.Host.CreateBindGroup, WebgpuHost.Host.CreateComputePipeline and WebgpuHost.Host.BeginRenderPass ignore the handles embedded in their descriptors. Those handles are layouts, buffers, the shader module and colour-attachment views (`webgpu/mod.rs:145`, `314`, `332`, `348`, `816`). In the source, a dead embedded handle also panics.
- The `wgpu_core` backend is modelled only as a source of fresh ids, a log of calls, and buffer bytes. Shader compilation, validation, queue execution and the blocking poll are not modelled. Neither are the bytes a copy or a pass writes.
- WebgpuHost.Host.CreateBuffer: the range check of the mapped-at-creation write is a parameter plus the bound "data fits the buffer". The `usize`-to-`u64` conversion of the data length is not modelled, since it cannot fail on 64-bit hosts.
- WebgpuHost.Host.MapAsync: an offset plus size that overflows 64 bits is modelled as a panic, as in a debug build. The bytes read from the mapped range are discarded by the source and are not modelled.
- WebgpuHost.Host.CopyBufferToBuffer: the backend's report is ignored, as in the source. No overlap or bounds check is modelled.
- WebgpuHost.Host.Tick and WebgpuHost.Host.Tock: clock readings, `elapsed` and console output are left out.
- The two `connect_graphics_context` handlers (`webgpu/mod.rs:87-94`, `frame_buffer.rs:52-57`) succeed and do nothing. They are not separate members.
- WebgpuHost.Host.Drop is not defined for graphics-context buffers: their drop handler lives in `graphics_context.rs`, which is not part of this model. The frame buffer's drop handler (`frame_buffer.rs:98-101`) is the `FrameBufferKind` case of Drop and succeeds.
- `Clone` does not count references: the two handles share a native buffer id and nothing more.
- Only one open pass per encoder is not enforced by the source, and not by the model.
- The frame buffer's pixels are held by value in its entry. Sharing them through `Arc<Mutex<..>>`, mutex poisoning and the "never none" option are left out.
- `Surface`, `buffer_mut` and `resize` in `frame_buffer.rs` are softbuffer presentation plumbing with an unsafe transmute, and are left out.
- The `todo!()` stubs (`limits`, `unmap`, `get_mapped_range`, `size`, `usage`, the adapter's `features`, the render pipeline's `get_bind_group_layout` and the rest) always panic. They are not modelled.
- Process start-up in `main.rs` (argument parsing, engine and linker set-up, the async runtime) is left out. The one fact used from it is that the queue is bound to the device type (`main.rs:67`).
- The guest application is left out.
- The state after a panic is not modelled: the guest instance is gone.
