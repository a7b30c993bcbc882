/** The host side of the guest's graphics interface (example-runtime's
    `webgpu` module): every entry point looks handles up in the resource
    table, calls the native backend, and then registers the result, registers
    it under a parent, or consumes a handle.

    The native backend is represented by three pieces of state: the counter
    that supplies fresh native ids, the log of the native calls whose
    arguments matter here, and the byte contents of the native buffers. What
    each native call reports (success or an error) is a parameter of the
    entry point that issues it. */
module WebgpuHost {
  import opened Outcomes
  import opened Payloads
  import opened ResourceTables
  import opened Webgpu

  /** No live entry holds the native id `id`. */
  ghost predicate FreshId(e: map<Handle, Entry>, id: NativeId) {
    forall h :: h in e ==> id !in Ids(e[h].payload)
  }

  /** Every native id held by a live entry lies below `n`. */
  ghost predicate IdsBelow(e: map<Handle, Entry>, n: NativeId) {
    forall h, id :: h in e && id in Ids(e[h].payload) ==> id < n
  }

  /** `after` is `before` plus one entry under a handle that was not live in
      `before`: a bare native id of kind `kind`, held by no entry of
      `before`, with owner `owner`. */
  ghost predicate CreatedBare(before: map<Handle, Entry>, after: map<Handle, Entry>, h: Handle, kind: IdKind, owner: Option<Handle>) {
    && h in after
    && after[h].payload.Bare?
    && after[h].payload.kind == kind
    && FreshId(before, after[h].payload.id)
    && Registered(before, after, h, Entry(after[h].payload, owner))
  }

  /** `after` is `before` with one more command `c` recorded into the pass `pass`. */
  ghost predicate RecordedInto(before: map<Handle, Entry>, after: map<Handle, Entry>, pass: Handle, c: PassCommand) {
    && pass in before
    && (before[pass].payload.ComputePass? || before[pass].payload.RenderPass?)
    && after == before[pass := Entry(Recorded(before[pass].payload, c), before[pass].owner)]
  }

  /** The contents of a freshly created native buffer of `n` bytes. */
  function Zeros(n: nat): (r: seq<u8>)
    ensures |r| == n && forall i :: 0 <= i < n ==> r[i] == 0
  {
    seq(n, _ => 0)
  }

  /** The resource types whose `drop` handler is still a `todo!()` and so
      panics: pipeline layouts, bind-group layouts, samplers and supported
      feature sets. Every other drop handler of a type the table holds
      returns at once, except the render pass's, which deletes the entry. */
  predicate DropPanics(k: Kind) {
    || k == BareKind(PipelineLayoutId)
    || k == BareKind(BindGroupLayoutId)
    || k == BareKind(SamplerId)
    || k == FeaturesKind
  }

  /** The initial data a buffer descriptor carries; none is the empty data. */
  function InitialData(contents: Option<seq<u8>>): (r: seq<u8>) {
    if contents.Some? then contents.value else []
  }

  class Host {
    const table: ResourceTable
    /** The native backend's supply of fresh ids. */
    var nextId: NativeId
    /** The native calls issued so far, oldest first. */
    var log: seq<NativeCall>
    /** The bytes of every native buffer created so far. */
    var memory: map<NativeId, seq<u8>>

    ghost predicate Valid()
      reads this, table
    {
      && table.Valid()
      && OwnersCanOwn(table.entries)
      && IdsBelow(table.entries, nextId)
      && (forall id :: id in memory ==> id < nextId)
    }

    constructor ()
      ensures Valid() && fresh(table)
      ensures table.entries == map[] && log == [] && memory == map[]
    {
      table := new ResourceTable();
      nextId := 0;
      log := [];
      memory := map[];
    }

    /** A native creation call: the backend hands out a fresh id together
        with an optional error, and `core_result(..).unwrap()` keeps the id
        or panics. */
    method NativeCreate(err: Option<NativeError>) returns (r: Outcome<NativeId>)
      requires Valid()
      modifies this
      ensures Valid() && log == old(log) && memory == old(memory)
      ensures r.Ok? <==> err.None?
      ensures r.Ok? ==> FreshId(table.entries, r.value) && r.value == old(nextId) < nextId && r.value !in memory
    {
      var id := nextId;
      nextId := nextId + 1;
      match CoreResult((id, err))
      case Failure(_) =>
        r := Abort;
      case Success(v) =>
        r := Ok(v);
    }

    /** `push` (no parent) or `push_child` of a payload whose native ids were
        all handed out already. The parent, when there is one, was looked up
        just before, so the table does not refuse it. */
    method Register(p: Payload, parent: Option<Handle>) returns (h: Handle)
      requires Valid()
      requires forall id :: id in Ids(p) ==> id < nextId
      requires parent.Some? ==> parent.value in table.entries && CanOwn(table.entries[parent.value].payload)
      modifies table
      ensures Valid()
      ensures Registered(old(table.entries), table.entries, h, Entry(p, parent))
    {
      if parent.Some? {
        var r := table.PushChild(p, parent.value);
        h := r.value;
      } else {
        h := table.Push(p);
      }
    }

    /** A typed `delete(..).unwrap()` of an entry that cannot own others. */
    method Consume(h: Handle, k: Kind) returns (r: Outcome<Payload>)
      requires Valid() && !KindCanOwn(k)
      modifies table
      ensures Valid()
      ensures r.Ok? <==> IsLive(old(table.entries), h, k)
      ensures r.Ok? ==> r.value == old(table.entries)[h].payload && table.entries == old(table.entries) - {h}
      ensures r.Abort? ==> table.entries == old(table.entries)
    {
      if IsLive(table.entries, h, k) {
        NoChildrenOfNonOwner(table.entries, table.entries, h);
      }
      r := table.Delete(h, k);
    }

    /** A typed `get_mut(..).unwrap()` on a pass, followed by recording one
        command into it. */
    method Record(pass: Handle, k: Kind, c: PassCommand) returns (r: Outcome<()>)
      requires Valid() && (k == ComputePassKind || k == RenderPassKind)
      modifies table
      ensures Valid()
      ensures r.Ok? <==> IsLive(old(table.entries), pass, k)
      ensures r.Ok? ==> RecordedInto(old(table.entries), table.entries, pass, c)
      ensures r.Abort? ==> table.entries == old(table.entries)
    {
      var p :- table.Get(pass, k);
      table.Store(pass, Recorded(p, c));
      r := Ok(());
    }

    /** The creation calls that look the device up, create one native object
        and register its bare id, as a child of the device or not. */
    method CreateOnDevice(device: Handle, kind: IdKind, err: Option<NativeError>, asChild: bool) returns (r: Outcome<Handle>)
      requires Valid()
      modifies this, table
      ensures Valid() && log == old(log) && memory == old(memory)
      ensures r.Ok? <==> IsLive(old(table.entries), device, DeviceKind) && err.None?
      ensures r.Ok? ==> CreatedBare(old(table.entries), table.entries, r.value, kind, if asChild then Some(device) else None)
    {
      var d :- table.Get(device, DeviceKind);
      var id :- NativeCreate(err);
      var h := Register(Bare(kind, id), if asChild then Some(device) else None);
      r := Ok(h);
    }

    // ---------------------------------------------------------------
    // Entry points without a table entry of their own
    // ---------------------------------------------------------------

    /** `get_gpu`: the guest's GPU handle is the constant 0, not a table entry. */
    method GetGpu() returns (r: Handle)
      ensures r == 0
    {
      r := 0;
    }

    /** `queue`: the queue of a device is the device's own handle; nothing is
        looked up or registered. */
    method Queue(device: Handle) returns (r: Handle)
      ensures r == device
    {
      r := device;
    }

    // ---------------------------------------------------------------
    // Timer
    // ---------------------------------------------------------------

    /** `new_timer`: registers a timer started at the clock reading `now`. */
    method NewTimer(now: int) returns (h: Handle)
      requires Valid()
      modifies table
      ensures Valid()
      ensures Registered(old(table.entries), table.entries, h, Entry(Timer(now), None))
    {
      h := Register(Timer(now), None);
    }

    /** `tick`: the timer is copied out of the table and the copy restarted,
        so the stored timer keeps its start. */
    method Tick(timer: Handle, now: int) returns (r: Outcome<()>)
      requires Valid()
      ensures r.Ok? <==> IsLive(table.entries, timer, TimerKind)
    {
      var t :- table.Get(timer, TimerKind);
      var restarted := t.(start := now);
      r := Ok(());
    }

    /** `tock`: reads the timer to print its elapsed time. */
    method Tock(timer: Handle) returns (r: Outcome<()>)
      requires Valid()
      ensures r.Ok? <==> IsLive(table.entries, timer, TimerKind)
    {
      var t :- table.Get(timer, TimerKind);
      r := Ok(());
    }

    // ---------------------------------------------------------------
    // Adapter and device
    // ---------------------------------------------------------------

    /** `request_adapter`: registers the native adapter without a parent. */
    method RequestAdapter(err: Option<NativeError>) returns (r: Outcome<Handle>)
      requires Valid()
      modifies this, table
      ensures Valid() && log == old(log) && memory == old(memory)
      ensures r.Ok? <==> err.None?
      ensures r.Ok? ==> CreatedBare(old(table.entries), table.entries, r.value, AdapterId, None)
    {
      var id :- NativeCreate(err);
      var h := Register(Bare(AdapterId, id), None);
      r := Ok(h);
    }

    /** `request_device`: registers a device, remembering its adapter's id,
        as a child of the adapter's handle. */
    method RequestDevice(adapter: Handle, err: Option<NativeError>) returns (r: Outcome<Handle>)
      requires Valid()
      modifies this, table
      ensures Valid() && log == old(log) && memory == old(memory)
      ensures r.Ok? <==> IsLive(old(table.entries), adapter, BareKind(AdapterId)) && err.None?
      ensures r.Ok? ==>
        && r.value in table.entries
        && var p := table.entries[r.value].payload;
        && p.Device?
        && p.adapter == old(table.entries)[adapter].payload.id
        && FreshId(old(table.entries), p.device)
        && Registered(old(table.entries), table.entries, r.value, Entry(p, Some(adapter)))
    {
      var a :- table.Get(adapter, BareKind(AdapterId));
      var id :- NativeCreate(err);
      var h := Register(Device(id, a.id), Some(adapter));
      r := Ok(h);
    }

    /** `create_command_encoder`: registered as a child of the device. */
    method CreateCommandEncoder(device: Handle, err: Option<NativeError>) returns (r: Outcome<Handle>)
      requires Valid()
      modifies this, table
      ensures Valid() && log == old(log) && memory == old(memory)
      ensures r.Ok? <==> IsLive(old(table.entries), device, DeviceKind) && err.None?
      ensures r.Ok? ==> CreatedBare(old(table.entries), table.entries, r.value, CommandEncoderId, Some(device))
    {
      r := CreateOnDevice(device, CommandEncoderId, err, true);
    }

    /** `create_shader_module`: registered without a parent. */
    method CreateShaderModule(device: Handle, err: Option<NativeError>) returns (r: Outcome<Handle>)
      requires Valid()
      modifies this, table
      ensures Valid() && log == old(log) && memory == old(memory)
      ensures r.Ok? <==> IsLive(old(table.entries), device, DeviceKind) && err.None?
      ensures r.Ok? ==> CreatedBare(old(table.entries), table.entries, r.value, ShaderModuleId, None)
    {
      r := CreateOnDevice(device, ShaderModuleId, err, false);
    }

    /** `create_render_pipeline`: registered as a child of the device. */
    method CreateRenderPipeline(device: Handle, err: Option<NativeError>) returns (r: Outcome<Handle>)
      requires Valid()
      modifies this, table
      ensures Valid() && log == old(log) && memory == old(memory)
      ensures r.Ok? <==> IsLive(old(table.entries), device, DeviceKind) && err.None?
      ensures r.Ok? ==> CreatedBare(old(table.entries), table.entries, r.value, RenderPipelineId, Some(device))
    {
      r := CreateOnDevice(device, RenderPipelineId, err, true);
    }

    /** `features`: the device's feature set, as the backend reports it,
        registered without a parent. */
    method Features(device: Handle, bits: nat, err: Option<NativeError>) returns (r: Outcome<Handle>)
      requires Valid()
      modifies table
      ensures Valid()
      ensures r.Ok? <==> IsLive(old(table.entries), device, DeviceKind) && err.None?
      ensures r.Ok? ==> Registered(old(table.entries), table.entries, r.value, Entry(Payloads.Features(bits), None))
    {
      var d :- table.Get(device, DeviceKind);
      if err.Some? {
        return Abort;
      }
      var h := Register(Payloads.Features(bits), None);
      r := Ok(h);
    }

    /** `create_buffer`: creates a native buffer of `size` bytes; when the
        descriptor carries initial data of length n > 0, the first n bytes
        are mapped and overwritten with it; the buffer is registered without
        a parent, together with the creating device's id. */
    method CreateBuffer(device: Handle, size: u64, contents: Option<seq<u8>>,
                        createErr: Option<NativeError>, rangeErr: Option<NativeError>)
      returns (r: Outcome<Handle>)
      requires Valid()
      modifies this, table
      ensures Valid() && log == old(log)
      ensures r.Ok? <==>
        && IsLive(old(table.entries), device, DeviceKind)
        && createErr.None?
        && (|InitialData(contents)| > 0 ==> rangeErr.None? && |InitialData(contents)| <= size)
      ensures r.Ok? ==>
        && r.value in table.entries
        && var p := table.entries[r.value].payload;
        && var n := |InitialData(contents)|;
        && p.Buffer?
        && p.dev == old(table.entries)[device].payload.device
        && FreshId(old(table.entries), p.buf)
        && Registered(old(table.entries), table.entries, r.value, Entry(p, None))
        && p.buf !in old(memory)
        && p.buf in memory
        && memory == old(memory)[p.buf := memory[p.buf]]
        && |memory[p.buf]| == size
        && memory[p.buf][..n] == InitialData(contents)
        && memory[p.buf][n..] == Zeros(size - n)
    {
      var d :- table.Get(device, DeviceKind);
      var buf :- NativeCreate(createErr);
      memory := memory[buf := Zeros(size)];
      var data := InitialData(contents);
      if |data| > 0 {
        if rangeErr.Some? || |data| > size {
          return Abort;
        }
        memory := memory[buf := data + memory[buf][|data|..]];
      }
      var h := Register(Buffer(buf, d.device), None);
      r := Ok(h);
    }

    /** `create_texture`: registered without a parent. */
    method CreateTexture(device: Handle, err: Option<NativeError>) returns (r: Outcome<Handle>)
      requires Valid()
      modifies this, table
      ensures Valid() && log == old(log) && memory == old(memory)
      ensures r.Ok? <==> IsLive(old(table.entries), device, DeviceKind) && err.None?
      ensures r.Ok? ==> CreatedBare(old(table.entries), table.entries, r.value, TextureId, None)
    {
      r := CreateOnDevice(device, TextureId, err, false);
    }

    /** `create_sampler`: the descriptor is optional in the interface but
        unwrapped, so a missing one panics; registered without a parent. */
    method CreateSampler(device: Handle, hasDescriptor: bool, err: Option<NativeError>) returns (r: Outcome<Handle>)
      requires Valid()
      modifies this, table
      ensures Valid() && log == old(log) && memory == old(memory)
      ensures r.Ok? <==> IsLive(old(table.entries), device, DeviceKind) && hasDescriptor && err.None?
      ensures r.Ok? ==> CreatedBare(old(table.entries), table.entries, r.value, SamplerId, None)
    {
      var d :- table.Get(device, DeviceKind);
      if !hasDescriptor {
        return Abort;
      }
      r := CreateOnDevice(device, SamplerId, err, false);
    }

    /** `create_bind_group_layout`: registered without a parent. */
    method CreateBindGroupLayout(device: Handle, err: Option<NativeError>) returns (r: Outcome<Handle>)
      requires Valid()
      modifies this, table
      ensures Valid() && log == old(log) && memory == old(memory)
      ensures r.Ok? <==> IsLive(old(table.entries), device, DeviceKind) && err.None?
      ensures r.Ok? ==> CreatedBare(old(table.entries), table.entries, r.value, BindGroupLayoutId, None)
    {
      r := CreateOnDevice(device, BindGroupLayoutId, err, false);
    }

    /** `create_pipeline_layout`: registered without a parent. */
    method CreatePipelineLayout(device: Handle, err: Option<NativeError>) returns (r: Outcome<Handle>)
      requires Valid()
      modifies this, table
      ensures Valid() && log == old(log) && memory == old(memory)
      ensures r.Ok? <==> IsLive(old(table.entries), device, DeviceKind) && err.None?
      ensures r.Ok? ==> CreatedBare(old(table.entries), table.entries, r.value, PipelineLayoutId, None)
    {
      r := CreateOnDevice(device, PipelineLayoutId, err, false);
    }

    /** `create_bind_group`: registered without a parent. */
    method CreateBindGroup(device: Handle, err: Option<NativeError>) returns (r: Outcome<Handle>)
      requires Valid()
      modifies this, table
      ensures Valid() && log == old(log) && memory == old(memory)
      ensures r.Ok? <==> IsLive(old(table.entries), device, DeviceKind) && err.None?
      ensures r.Ok? ==> CreatedBare(old(table.entries), table.entries, r.value, BindGroupId, None)
    {
      r := CreateOnDevice(device, BindGroupId, err, false);
    }

    /** `create_compute_pipeline`: the pipeline is registered, with the
        device's id, as a child of the device. */
    method CreateComputePipeline(device: Handle, err: Option<NativeError>) returns (r: Outcome<Handle>)
      requires Valid()
      modifies this, table
      ensures Valid() && log == old(log) && memory == old(memory)
      ensures r.Ok? <==> IsLive(old(table.entries), device, DeviceKind) && err.None?
      ensures r.Ok? ==>
        && r.value in table.entries
        && var p := table.entries[r.value].payload;
        && p.Pipeline?
        && p.device == old(table.entries)[device].payload.device
        && FreshId(old(table.entries), p.pipe)
        && Registered(old(table.entries), table.entries, r.value, Entry(p, Some(device)))
    {
      var d :- table.Get(device, DeviceKind);
      var id :- NativeCreate(err);
      var h := Register(Pipeline(id, d.device), Some(device));
      r := Ok(h);
    }

    /** `get_bind_group_layout` of a compute pipeline: registered without a parent. */
    method GetBindGroupLayout(pipeline: Handle, index: u32, err: Option<NativeError>) returns (r: Outcome<Handle>)
      requires Valid()
      modifies this, table
      ensures Valid() && log == old(log) && memory == old(memory)
      ensures r.Ok? <==> IsLive(old(table.entries), pipeline, PipelineKind) && err.None?
      ensures r.Ok? ==> CreatedBare(old(table.entries), table.entries, r.value, BindGroupLayoutId, None)
    {
      var p :- table.Get(pipeline, PipelineKind);
      var id :- NativeCreate(err);
      var h := Register(Bare(BindGroupLayoutId, id), None);
      r := Ok(h);
    }

    // ---------------------------------------------------------------
    // Texture
    // ---------------------------------------------------------------

    /** `from_graphics_buffer` of a texture: always deletes the graphics
        buffer's handle first; registers the texture it carries, or panics
        when it carries a pixel frame buffer instead. */
    method TextureFromGraphicsBuffer(buffer: Handle) returns (r: Outcome<Handle>)
      requires Valid()
      modifies table
      ensures Valid()
      ensures r.Ok? <==>
        IsLive(old(table.entries), buffer, GraphicsBufferKind) && old(table.entries)[buffer].payload.content.WebgpuTexture?
      ensures r.Ok? ==>
        Registered(old(table.entries) - {buffer}, table.entries, r.value,
                   Entry(Bare(TextureId, old(table.entries)[buffer].payload.content.texture), None))
      ensures r.Abort? && IsLive(old(table.entries), buffer, GraphicsBufferKind) ==>
        table.entries == old(table.entries) - {buffer}
    {
      ghost var before := table.entries;
      var g :- Consume(buffer, GraphicsBufferKind);
      assert g.content.WebgpuTexture? ==> g.content.texture in Ids(before[buffer].payload);
      if g.content.FrameBufferContent? {
        return Abort;
      }
      var h := Register(Bare(TextureId, g.content.texture), None);
      r := Ok(h);
    }

    /** `create_view` of a texture: registered without a parent. */
    method CreateView(texture: Handle, err: Option<NativeError>) returns (r: Outcome<Handle>)
      requires Valid()
      modifies this, table
      ensures Valid() && log == old(log) && memory == old(memory)
      ensures r.Ok? <==> IsLive(old(table.entries), texture, BareKind(TextureId)) && err.None?
      ensures r.Ok? ==> CreatedBare(old(table.entries), table.entries, r.value, TextureViewId, None)
    {
      var t :- table.Get(texture, BareKind(TextureId));
      var id :- NativeCreate(err);
      var h := Register(Bare(TextureViewId, id), None);
      r := Ok(h);
    }

    // ---------------------------------------------------------------
    // Command encoder
    // ---------------------------------------------------------------

    /** `begin_compute_pass`: records nothing natively; registers an empty
        compute pass for the encoder's id, without a parent. */
    method BeginComputePass(encoder: Handle) returns (r: Outcome<Handle>)
      requires Valid()
      modifies table
      ensures Valid()
      ensures r.Ok? <==> IsLive(old(table.entries), encoder, BareKind(CommandEncoderId))
      ensures r.Ok? ==>
        Registered(old(table.entries), table.entries, r.value,
                   Entry(ComputePass(old(table.entries)[encoder].payload.id, []), None))
    {
      var e :- table.Get(encoder, BareKind(CommandEncoderId));
      assert e.id in Ids(table.entries[encoder].payload);
      var h := Register(ComputePass(e.id, []), None);
      r := Ok(h);
    }

    /** `begin_render_pass`: registers an empty render pass for the
        encoder's id, without a parent. */
    method BeginRenderPass(encoder: Handle) returns (r: Outcome<Handle>)
      requires Valid()
      modifies table
      ensures Valid()
      ensures r.Ok? <==> IsLive(old(table.entries), encoder, BareKind(CommandEncoderId))
      ensures r.Ok? ==>
        Registered(old(table.entries), table.entries, r.value,
                   Entry(RenderPass(old(table.entries)[encoder].payload.id, []), None))
    {
      var e :- table.Get(encoder, BareKind(CommandEncoderId));
      assert e.id in Ids(table.entries[encoder].payload);
      var h := Register(RenderPass(e.id, []), None);
      r := Ok(h);
    }

    /** `finish`: consumes the encoder's handle and registers one new
        command buffer, without a parent. */
    method Finish(encoder: Handle, err: Option<NativeError>) returns (r: Outcome<Handle>)
      requires Valid()
      modifies this, table
      ensures Valid() && log == old(log) && memory == old(memory)
      ensures r.Ok? <==> IsLive(old(table.entries), encoder, BareKind(CommandEncoderId)) && err.None?
      ensures r.Ok? ==>
        && CreatedBare(old(table.entries) - {encoder}, table.entries, r.value, CommandBufferId, None)
        && FreshId(old(table.entries), table.entries[r.value].payload.id)
    {
      ghost var before := table.entries;
      var e :- Consume(encoder, BareKind(CommandEncoderId));
      var id :- NativeCreate(err);
      assert FreshId(before, id);
      var h := Register(Bare(CommandBufferId, id), None);
      r := Ok(h);
    }

    /** `copy_buffer_to_buffer`: the three handles must be live; the copy is
        issued natively and whatever the backend reports is ignored. */
    method CopyBufferToBuffer(encoder: Handle, source: Handle, sourceOffset: u64,
                              destination: Handle, destinationOffset: u64, size: u64,
                              copyErr: Option<NativeError>)
      returns (r: Outcome<()>)
      requires Valid()
      modifies this
      ensures Valid() && memory == old(memory)
      ensures r.Ok? <==>
        && IsLive(table.entries, encoder, BareKind(CommandEncoderId))
        && IsLive(table.entries, source, BufferKind)
        && IsLive(table.entries, destination, BufferKind)
      ensures r.Ok? ==>
        log == old(log) + [Payloads.CopyBufferToBuffer(table.entries[encoder].payload.id,
                                              table.entries[source].payload.buf, sourceOffset,
                                              table.entries[destination].payload.buf, destinationOffset, size)]
    {
      var e :- table.Get(encoder, BareKind(CommandEncoderId));
      var s :- table.Get(source, BufferKind);
      var d :- table.Get(destination, BufferKind);
      log := log + [Payloads.CopyBufferToBuffer(e.id, s.buf, sourceOffset, d.buf, destinationOffset, size)];
      r := Ok(());
    }

    // ---------------------------------------------------------------
    // Queue
    // ---------------------------------------------------------------

    /** `submit`: deletes the listed command-buffer handles one by one, in
        list order, then looks the queue up as a device and hands the
        command buffers' native ids to it in that same order. */
    method Submit(queue: Handle, buffers: seq<Handle>, err: Option<NativeError>) returns (r: Outcome<()>)
      requires Valid()
      modifies this, table
      ensures Valid() && memory == old(memory)
      ensures r.Ok? <==>
        && AllCommandBuffers(old(table.entries), buffers)
        && Distinct(buffers)
        && IsLive(old(table.entries), queue, DeviceKind)
        && err.None?
      ensures r.Ok? ==>
        && AllCommandBuffers(old(table.entries), buffers)
        && table.entries == old(table.entries) - Elems(buffers)
        && log == old(log) + [QueueSubmit(old(table.entries)[queue].payload.device,
                                          SubmittedIds(old(table.entries), buffers))]
    {
      ghost var before := table.entries;
      ConsumeAllMeaning(before, buffers);
      var ids: seq<NativeId> := [];
      var i := 0;
      while i < |buffers|
        invariant 0 <= i <= |buffers|
        invariant Valid() && log == old(log) && memory == old(memory)
        invariant ConsumeAll(before, buffers[..i]) == Ok((table.entries, ids))
      {
        var p := Consume(buffers[i], CommandBufferKind);
        assert buffers[..i + 1][..i] == buffers[..i];
        if p.Abort? {
          ConsumeAllPrefixAborts(before, buffers, i + 1);
          return Abort;
        }
        ids := ids + [p.value.id];
        i := i + 1;
      }
      assert buffers[..i] == buffers;
      assert IsLive(table.entries, queue, DeviceKind) <==> IsLive(before, queue, DeviceKind);
      var d :- table.Get(queue, DeviceKind);
      if err.Some? {
        return Abort;
      }
      assert ids == SubmittedIds(before, buffers);
      log := log + [QueueSubmit(d.device, ids)];
      r := Ok(());
    }

    // ---------------------------------------------------------------
    // Render pass
    // ---------------------------------------------------------------

    /** `set_pipeline` of a render pass: records the render pipeline's id. */
    method RenderSetPipeline(pass: Handle, pipeline: Handle) returns (r: Outcome<()>)
      requires Valid()
      modifies table
      ensures Valid()
      ensures r.Ok? <==>
        IsLive(old(table.entries), pipeline, BareKind(RenderPipelineId)) && IsLive(old(table.entries), pass, RenderPassKind)
      ensures r.Ok? ==>
        RecordedInto(old(table.entries), table.entries, pass, SetPipeline(old(table.entries)[pipeline].payload.id))
    {
      var p :- table.Get(pipeline, BareKind(RenderPipelineId));
      r := Record(pass, RenderPassKind, SetPipeline(p.id));
    }

    /** `draw`: records the draw with the guest's four counts. */
    method Draw(pass: Handle, vertexCount: u32, instanceCount: u32, firstVertex: u32, firstInstance: u32)
      returns (r: Outcome<()>)
      requires Valid()
      modifies table
      ensures Valid()
      ensures r.Ok? <==> IsLive(old(table.entries), pass, RenderPassKind)
      ensures r.Ok? ==>
        RecordedInto(old(table.entries), table.entries, pass,
                     Payloads.Draw(vertexCount, instanceCount, firstVertex, firstInstance))
    {
      r := Record(pass, RenderPassKind, Payloads.Draw(vertexCount, instanceCount, firstVertex, firstInstance));
    }

    /** `end` of a render pass: consumes the pass's handle and replays its
        recorded commands on the encoder given by the guest, whose entry is
        left as it was. */
    method EndRenderPass(pass: Handle, encoder: Handle, err: Option<NativeError>) returns (r: Outcome<()>)
      requires Valid()
      modifies this, table
      ensures Valid() && memory == old(memory)
      ensures r.Ok? <==>
        && IsLive(old(table.entries), pass, RenderPassKind)
        && IsLive(old(table.entries), encoder, BareKind(CommandEncoderId))
        && err.None?
      ensures r.Ok? ==>
        && table.entries == old(table.entries) - {pass}
        && encoder in table.entries && table.entries[encoder] == old(table.entries)[encoder]
        && log == old(log) + [RunRenderPass(old(table.entries)[encoder].payload.id,
                                            old(table.entries)[pass].payload.commands)]
    {
      var p :- Consume(pass, RenderPassKind);
      var e :- table.Get(encoder, BareKind(CommandEncoderId));
      if err.Some? {
        return Abort;
      }
      log := log + [RunRenderPass(e.id, p.commands)];
      r := Ok(());
    }

    /** `drop` of a render pass: deletes the handle, which panics when it is
        no longer live. */
    method DropRenderPass(pass: Handle) returns (r: Outcome<()>)
      requires Valid()
      modifies table
      ensures Valid()
      ensures r.Ok? <==> IsLive(old(table.entries), pass, RenderPassKind)
      ensures r.Ok? ==> table.entries == old(table.entries) - {pass}
    {
      var p :- Consume(pass, RenderPassKind);
      r := Ok(());
    }

    /** The `drop` handler the runtime calls when the guest drops a handle of
        resource type `k`. The render pass's deletes the entry; the
        handlers that are still `todo!()` panic; all others return at once
        and leave the entry in the table. */
    method Drop(h: Handle, k: Kind) returns (r: Outcome<()>)
      requires Valid() && k != GraphicsBufferKind
      modifies table
      ensures Valid()
      ensures k == RenderPassKind ==>
        && (r.Ok? <==> IsLive(old(table.entries), h, RenderPassKind))
        && (r.Ok? ==> table.entries == old(table.entries) - {h})
      ensures k != RenderPassKind ==>
        && (r.Abort? <==> DropPanics(k))
        && table.entries == old(table.entries)
    {
      if k == RenderPassKind {
        r := DropRenderPass(h);
      } else if DropPanics(k) {
        r := Abort;
      } else {
        r := Ok(());
      }
    }

    // ---------------------------------------------------------------
    // Compute pass
    // ---------------------------------------------------------------

    /** `set_pipeline` of a compute pass: records the pipeline's native id. */
    method ComputeSetPipeline(pass: Handle, pipeline: Handle) returns (r: Outcome<()>)
      requires Valid()
      modifies table
      ensures Valid()
      ensures r.Ok? <==>
        IsLive(old(table.entries), pipeline, PipelineKind) && IsLive(old(table.entries), pass, ComputePassKind)
      ensures r.Ok? ==>
        RecordedInto(old(table.entries), table.entries, pass, SetPipeline(old(table.entries)[pipeline].payload.pipe))
    {
      var p :- table.Get(pipeline, PipelineKind);
      r := Record(pass, ComputePassKind, SetPipeline(p.pipe));
    }

    /** `set_bind_group` of a compute pass: records the bind group's id at
        `index`; the dynamic offsets are dropped. */
    method ComputeSetBindGroup(pass: Handle, index: u32, group: Handle, dynamicOffsets: Option<seq<u32>>)
      returns (r: Outcome<()>)
      requires Valid()
      modifies table
      ensures Valid()
      ensures r.Ok? <==>
        IsLive(old(table.entries), group, BareKind(BindGroupId)) && IsLive(old(table.entries), pass, ComputePassKind)
      ensures r.Ok? ==>
        RecordedInto(old(table.entries), table.entries, pass, SetBindGroup(index, old(table.entries)[group].payload.id))
    {
      var g :- table.Get(group, BareKind(BindGroupId));
      r := Record(pass, ComputePassKind, SetBindGroup(index, g.id));
    }

    /** `dispatch_workgroups`: records the counts (x, 1, 1); the guest's y
        and z are ignored. */
    method DispatchWorkgroups(pass: Handle, x: u32, y: Option<u32>, z: Option<u32>) returns (r: Outcome<()>)
      requires Valid()
      modifies table
      ensures Valid()
      ensures r.Ok? <==> IsLive(old(table.entries), pass, ComputePassKind)
      ensures r.Ok? ==> RecordedInto(old(table.entries), table.entries, pass, Dispatch(x, 1, 1))
    {
      r := Record(pass, ComputePassKind, Dispatch(x, 1, 1));
    }

    /** `end` of a compute pass: consumes the pass's handle and replays its
        recorded commands on the encoder given by the guest, whose entry is
        left as it was. */
    method EndComputePass(pass: Handle, encoder: Handle, err: Option<NativeError>) returns (r: Outcome<()>)
      requires Valid()
      modifies this, table
      ensures Valid() && memory == old(memory)
      ensures r.Ok? <==>
        && IsLive(old(table.entries), pass, ComputePassKind)
        && IsLive(old(table.entries), encoder, BareKind(CommandEncoderId))
        && err.None?
      ensures r.Ok? ==>
        && table.entries == old(table.entries) - {pass}
        && encoder in table.entries && table.entries[encoder] == old(table.entries)[encoder]
        && log == old(log) + [RunComputePass(old(table.entries)[encoder].payload.id,
                                             old(table.entries)[pass].payload.commands)]
    {
      var p :- Consume(pass, ComputePassKind);
      var e :- table.Get(encoder, BareKind(CommandEncoderId));
      if err.Some? {
        return Abort;
      }
      log := log + [RunComputePass(e.id, p.commands)];
      r := Ok(());
    }

    // ---------------------------------------------------------------
    // Buffer
    // ---------------------------------------------------------------

    /** `clone`: registers a second handle on the same native buffer and
        device, without a parent and without creating a native buffer. */
    method Clone(buffer: Handle) returns (r: Outcome<Handle>)
      requires Valid()
      modifies table
      ensures Valid()
      ensures r.Ok? <==> IsLive(old(table.entries), buffer, BufferKind)
      ensures r.Ok? ==>
        && Registered(old(table.entries), table.entries, r.value, Entry(old(table.entries)[buffer].payload, None))
        && buffer in table.entries && table.entries[buffer] == old(table.entries)[buffer]
    {
      var b :- table.Get(buffer, BufferKind);
      var h := Register(Buffer(b.buf, b.dev), None);
      r := Ok(h);
    }

    /** `map_async`: requests a read mapping of `[offset, offset + size)`
        whatever the mode argument says, blocks on the buffer's device until
        the map completes, then fetches the mapped range. Every failure along
        the way panics. */
    method MapAsync(buffer: Handle, mode: u32, offset: Option<u64>, size: Option<u64>,
                    requestErr: Option<NativeError>, status: Result<(), NativeError>,
                    pollErr: Option<NativeError>, rangeErr: Option<NativeError>)
      returns (r: Outcome<()>)
      requires Valid()
      modifies this
      ensures Valid() && memory == old(memory)
      ensures r.Ok? <==>
        && IsLive(table.entries, buffer, BufferKind)
        && MapRange(offset, size).Ok?
        && requestErr.None? && status.Success? && pollErr.None? && rangeErr.None?
      ensures r.Ok? ==>
        && var b := table.entries[buffer].payload;
        && var range := MapRange(offset, size).value;
        && log == old(log) + [BufferMapAsync(b.buf, range.0, range.1, Read), DevicePoll(b.dev)]
    {
      var b :- table.Get(buffer, BufferKind);
      var range :- MapRange(offset, size);
      if requestErr.Some? {
        return Abort;
      }
      log := log + [BufferMapAsync(b.buf, range.0, range.1, Read), DevicePoll(b.dev)];
      var completed :- MapCallback(status);
      if pollErr.Some? || rangeErr.Some? {
        return Abort;
      }
      r := Ok(());
    }
  }
}
