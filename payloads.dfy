/** The values stored in the host's resource table and the native calls the
    host issues. Native objects live inside the graphics backend; the host
    only ever sees their ids. */
module Payloads {

  /** Unsigned machine integers of the guest interface. */
  type u8 = x: int | 0 <= x < 0x100
  type u32 = x: int | 0 <= x < 0x1_0000_0000
  type u64 = x: int | 0 <= x < 0x1_0000_0000_0000_0000

  const U32_LIMIT: int := 0x1_0000_0000
  const U64_LIMIT: int := 0x1_0000_0000_0000_0000

  /** An opaque id handed out by the native backend. */
  type NativeId = nat

  /** An opaque error value reported by the native backend. */
  type NativeError = nat

  /** The native ids the table stores as they are, without a wrapping struct. */
  datatype IdKind =
    | AdapterId
    | CommandEncoderId
    | CommandBufferId
    | ShaderModuleId
    | RenderPipelineId
    | TextureId
    | TextureViewId
    | SamplerId
    | BindGroupLayoutId
    | PipelineLayoutId
    | BindGroupId

  /** A command recorded into a compute or render pass; it reaches the native
      encoder only when the pass ends. */
  datatype PassCommand =
    | SetPipeline(pipeline: NativeId)
    | SetBindGroup(index: u32, group: NativeId)
    | Dispatch(x: u32, y: u32, z: u32)
    | Draw(vertexCount: u32, instanceCount: u32, firstVertex: u32, firstInstance: u32)

  /** What a graphics context hands over: a pixel frame buffer or a native texture. */
  datatype GraphicsContextBuffer =
    | FrameBufferContent(pixels: seq<u32>)
    | WebgpuTexture(texture: NativeId)

  /** One value per resource type the host stores in its table. */
  datatype Payload =
    | Bare(kind: IdKind, id: NativeId)
    | Device(device: NativeId, adapter: NativeId)
    | Pipeline(pipe: NativeId, device: NativeId)
    | Buffer(buf: NativeId, dev: NativeId)
    | ComputePass(encoder: NativeId, commands: seq<PassCommand>)
    | RenderPass(encoder: NativeId, commands: seq<PassCommand>)
    | Timer(start: int)
    | Features(bits: nat)
    | GraphicsBuffer(content: GraphicsContextBuffer)
    | FrameBuffer(pixels: seq<u32>)

  /** The type tag the table checks on every typed lookup. */
  datatype Kind =
    | BareKind(idKind: IdKind)
    | DeviceKind
    | PipelineKind
    | BufferKind
    | ComputePassKind
    | RenderPassKind
    | TimerKind
    | FeaturesKind
    | GraphicsBufferKind
    | FrameBufferKind

  function KindOf(p: Payload): (r: Kind) {
    match p
    case Bare(k, _) => BareKind(k)
    case Device(_, _) => DeviceKind
    case Pipeline(_, _) => PipelineKind
    case Buffer(_, _) => BufferKind
    case ComputePass(_, _) => ComputePassKind
    case RenderPass(_, _) => RenderPassKind
    case Timer(_) => TimerKind
    case Features(_) => FeaturesKind
    case GraphicsBuffer(_) => GraphicsBufferKind
    case FrameBuffer(_) => FrameBufferKind
  }

  /** The native ids a payload holds directly (ids inside recorded pass
      commands are not counted). */
  function Ids(p: Payload): (r: set<NativeId>) {
    match p
    case Bare(_, id) => {id}
    case Device(d, a) => {d, a}
    case Pipeline(q, d) => {q, d}
    case Buffer(b, d) => {b, d}
    case ComputePass(e, _) => {e}
    case RenderPass(e, _) => {e}
    case GraphicsBuffer(WebgpuTexture(t)) => {t}
    case _ => {}
  }

  /** Only adapters and devices are ever registered as owners of other entries. */
  predicate CanOwn(p: Payload) {
    p.Device? || (p.Bare? && p.kind == AdapterId)
  }

  /** The kinds whose payloads may own other entries. */
  predicate KindCanOwn(k: Kind) {
    k == DeviceKind || k == BareKind(AdapterId)
  }

  /** A compute or render pass with one more command recorded at its end. */
  function Recorded(p: Payload, c: PassCommand): (r: Payload)
    requires p.ComputePass? || p.RenderPass?
    ensures KindOf(r) == KindOf(p) && r.encoder == p.encoder && Ids(r) == Ids(p)
    ensures r.commands == p.commands + [c]
  {
    p.(commands := p.commands + [c])
  }

  /** The mode a buffer mapping is requested in. */
  datatype HostMap = Read | Write

  /** The native calls whose arguments the model tracks, in issue order. */
  datatype NativeCall =
    | QueueSubmit(queueDevice: NativeId, commandBuffers: seq<NativeId>)
    | RunComputePass(target: NativeId, recorded: seq<PassCommand>)
    | RunRenderPass(target: NativeId, recorded: seq<PassCommand>)
    | CopyBufferToBuffer(copyEncoder: NativeId, source: NativeId, sourceOffset: u64,
                         destination: NativeId, destinationOffset: u64, size: u64)
    | BufferMapAsync(mapped: NativeId, start: u64, end: u64, host: HostMap)
    | DevicePoll(polled: NativeId)
}
