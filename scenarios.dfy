/** Sequences of host calls, as a guest issues them, and what the model
    promises about the whole sequence. */
module Scenarios {
  import opened Outcomes
  import opened Payloads
  import opened ResourceTables
  import opened Webgpu
  import opened WebgpuHost
  import FrameBuffers

  /** Finishing an encoder consumes it: a second `finish` on the same
      handle panics at the delete. */
  method FinishTwice(host: Host, encoder: Handle, err1: Option<NativeError>, err2: Option<NativeError>)
    returns (first: Outcome<Handle>, second: Outcome<Handle>)
    requires host.Valid()
    modifies host, host.table
    ensures first.Ok? ==> second.Abort?
  {
    first := host.Finish(encoder, err1);
    second := host.Finish(encoder, err2);
  }

  /** A successful `submit` consumes every listed command buffer, so
      submitting the same non-empty list again panics. */
  method SubmitTwice(host: Host, queue: Handle, buffers: seq<Handle>, err1: Option<NativeError>, err2: Option<NativeError>)
    returns (first: Outcome<()>, second: Outcome<()>)
    requires host.Valid() && |buffers| > 0
    modifies host, host.table
    ensures first.Ok? ==> second.Abort?
  {
    first := host.Submit(queue, buffers, err1);
    if first.Ok? {
      assert buffers[0] in Elems(buffers);
    }
    second := host.Submit(queue, buffers, err2);
  }

  /** A render pass that was ended is no longer in the table, so its
      `drop` handler panics. */
  method EndThenDropRenderPass(host: Host, pass: Handle, encoder: Handle, err: Option<NativeError>)
    returns (end: Outcome<()>, drop: Outcome<()>)
    requires host.Valid()
    modifies host, host.table
    ensures end.Ok? ==> drop.Abort?
  {
    end := host.EndRenderPass(pass, encoder, err);
    drop := host.DropRenderPass(pass);
  }

  /** The whole life of one compute pass on a live device with a backend
      that reports no error: encoder, pass, one dispatch, end, finish,
      submit. Every step succeeds, the pass's commands reach the backend
      against the encoder's id, and the one command buffer is handed to the
      device's queue. */
  method ComputeRoundTrip(host: Host, device: Handle, x: u32, y: Option<u32>, z: Option<u32>)
    returns (r: Outcome<()>)
    requires host.Valid() && IsLive(host.table.entries, device, DeviceKind)
    modifies host, host.table
    ensures host.Valid()
    ensures r.Ok?
    ensures exists enc, cb ::
      host.log == old(host.log) + [RunComputePass(enc, [Dispatch(x, 1, 1)]),
                                   QueueSubmit(old(host.table.entries)[device].payload.device, [cb])]
  {
    ghost var dev := host.table.entries[device].payload.device;
    var encoder := host.CreateCommandEncoder(device, None);
    assert encoder.Ok?;
    ghost var enc := host.table.entries[encoder.value].payload.id;
    var pass := host.BeginComputePass(encoder.value);
    assert pass.Ok?;
    var dispatched := host.DispatchWorkgroups(pass.value, x, y, z);
    assert dispatched.Ok?;
    assert host.table.entries[pass.value].payload.commands == [Dispatch(x, 1, 1)];
    var ended := host.EndComputePass(pass.value, encoder.value, None);
    assert ended.Ok?;
    assert host.log == old(host.log) + [RunComputePass(enc, [Dispatch(x, 1, 1)])];
    var buffer := host.Finish(encoder.value, None);
    assert buffer.Ok?;
    ghost var cb := host.table.entries[buffer.value].payload.id;
    assert IsLive(host.table.entries, device, DeviceKind) && host.table.entries[device].payload.device == dev;
    assert AllCommandBuffers(host.table.entries, [buffer.value]);
    assert SubmittedIds(host.table.entries, [buffer.value]) == [cb];
    r := host.Submit(device, [buffer.value], None);
    assert host.log == old(host.log) + [RunComputePass(enc, [Dispatch(x, 1, 1)]), QueueSubmit(dev, [cb])];
  }

  /** `set(i, v)` followed by `get(i)` reads `v` back; the length and every
      other pixel are as before. */
  method SetThenGet(host: Host, buffer: Handle, i: u32, v: u32, j: u32)
    returns (written: Outcome<()>, got: Outcome<u32>, other: Outcome<u32>)
    requires host.Valid()
    modifies host.table
    ensures written.Ok? ==> got == Ok(v)
    ensures written.Ok? ==> IsLive(old(host.table.entries), buffer, FrameBufferKind)
    ensures written.Ok? && j != i ==>
      (other.Ok? <==> j < |FrameBuffers.Pixels(old(host.table.entries), buffer)|)
      && (other.Ok? ==> other.value == FrameBuffers.Pixels(old(host.table.entries), buffer)[j])
  {
    written := FrameBuffers.Set(host, buffer, i, v);
    got := FrameBuffers.Get(host, buffer, i);
    other := FrameBuffers.Get(host, buffer, j);
  }

  /** `set` leaves the length `length` reports unchanged. */
  method SetKeepsLength(host: Host, buffer: Handle, i: u32, v: u32)
    returns (before: Outcome<u32>, written: Outcome<()>, after: Outcome<u32>)
    requires host.Valid()
    modifies host.table
    ensures written.Ok? ==> before.Ok? && after == before
  {
    before := FrameBuffers.Length(host, buffer);
    written := FrameBuffers.Set(host, buffer, i, v);
    after := FrameBuffers.Length(host, buffer);
  }
}
