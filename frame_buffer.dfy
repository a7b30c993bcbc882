/** The host side of the guest's pixel frame-buffer interface
    (example-runtime's `frame_buffer` module). A frame buffer's pixels are
    kept in its table entry. */
module FrameBuffers {
  import opened Outcomes
  import opened Payloads
  import opened ResourceTables
  import opened WebgpuHost

  /** The pixels of a live frame-buffer entry. */
  function Pixels(e: map<Handle, Entry>, h: Handle): (r: seq<u32>)
    requires IsLive(e, h, FrameBufferKind)
  {
    e[h].payload.pixels
  }

  /** The `usize`-to-`u32` cast of a length: it keeps the low 32 bits. */
  function TruncateToU32(n: nat): (r: u32)
    ensures r < U32_LIMIT && (r == n <==> n < U32_LIMIT)
  {
    n % U32_LIMIT
  }

  /** `from_graphics_buffer`: always deletes the graphics buffer's handle
      first; registers the pixel buffer it carries, or panics when the
      context was connected to the GPU instead. */
  method FromGraphicsBuffer(host: Host, buffer: Handle) returns (r: Outcome<Handle>)
    requires host.Valid()
    modifies host.table
    ensures host.Valid()
    ensures r.Ok? <==>
      IsLive(old(host.table.entries), buffer, GraphicsBufferKind)
      && old(host.table.entries)[buffer].payload.content.FrameBufferContent?
    ensures r.Ok? ==>
      Registered(old(host.table.entries) - {buffer}, host.table.entries, r.value,
                 Entry(FrameBuffer(old(host.table.entries)[buffer].payload.content.pixels), None))
    ensures r.Abort? && IsLive(old(host.table.entries), buffer, GraphicsBufferKind) ==>
      host.table.entries == old(host.table.entries) - {buffer}
  {
    var g :- host.Consume(buffer, GraphicsBufferKind);
    if g.content.WebgpuTexture? {
      return Abort;
    }
    var h := host.Register(FrameBuffer(g.content.pixels), None);
    r := Ok(h);
  }

  /** `length`: the number of pixels, truncated to 32 bits. */
  method Length(host: Host, buffer: Handle) returns (r: Outcome<u32>)
    requires host.Valid()
    ensures r.Ok? <==> IsLive(host.table.entries, buffer, FrameBufferKind)
    ensures r.Ok? ==> r.value == TruncateToU32(|Pixels(host.table.entries, buffer)|)
  {
    var p :- host.table.Get(buffer, FrameBufferKind);
    r := Ok(TruncateToU32(|p.pixels|));
  }

  /** `get`: the pixel at index `i`; an index past the end panics. */
  method Get(host: Host, buffer: Handle, i: u32) returns (r: Outcome<u32>)
    requires host.Valid()
    ensures r.Ok? <==> IsLive(host.table.entries, buffer, FrameBufferKind) && i < |Pixels(host.table.entries, buffer)|
    ensures r.Ok? ==> r.value == Pixels(host.table.entries, buffer)[i]
  {
    var p :- host.table.Get(buffer, FrameBufferKind);
    if i >= |p.pixels| {
      return Abort;
    }
    r := Ok(p.pixels[i]);
  }

  /** `set`: overwrites the pixel at index `i`; an index past the end
      panics. Only that pixel of that entry changes. */
  method Set(host: Host, buffer: Handle, i: u32, val: u32) returns (r: Outcome<()>)
    requires host.Valid()
    modifies host.table
    ensures host.Valid()
    ensures r.Ok? <==>
      IsLive(old(host.table.entries), buffer, FrameBufferKind) && i < |Pixels(old(host.table.entries), buffer)|
    ensures r.Ok? ==>
      && IsLive(host.table.entries, buffer, FrameBufferKind)
      && Pixels(host.table.entries, buffer) == Pixels(old(host.table.entries), buffer)[i := val]
      && host.table.entries == old(host.table.entries)[buffer := Entry(host.table.entries[buffer].payload, old(host.table.entries)[buffer].owner)]
    ensures r.Abort? ==> host.table.entries == old(host.table.entries)
  {
    var p :- host.table.Get(buffer, FrameBufferKind);
    if i >= |p.pixels| {
      return Abort;
    }
    host.table.Store(buffer, FrameBuffer(p.pixels[i := val]));
    r := Ok(());
  }
}
