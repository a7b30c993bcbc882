/** The pure parts of the host bridge: turning the native backend's
    `(id, error)` pairs into results, the buffer-map completion callback,
    the range a buffer map requests, and what `submit` does to the table
    when it consumes a list of command-buffer handles. */
module Webgpu {
  import opened Outcomes
  import opened Payloads
  import opened ResourceTables

  /** The native backend answers a creation call with an id and an optional
      error; the id is only meaningful when there is no error. */
  function CoreResult<I, E>(answer: (I, Option<E>)): (r: Result<I, E>)
    ensures r.Failure? <==> answer.1.Some?
    ensures r.Failure? ==> r.error == answer.1.value
    ensures r.Success? ==> r.value == answer.0
  {
    match answer.1
    case Some(e) => Failure(e)
    case None => Success(answer.0)
  }

  /** The completion callback of a buffer map: a failed map panics. */
  function MapCallback(status: Result<(), NativeError>): (r: Outcome<()>)
    ensures r.Abort? <==> status.Failure?
  {
    if status.Failure? then Abort else Ok(())
  }

  /** The byte range `[offset, offset + size)` a buffer map requests. Both
      bounds must be given (`expect`), and the end is computed in 64-bit
      unsigned arithmetic, which panics on overflow. */
  function MapRange(offset: Option<u64>, size: Option<u64>): (r: Outcome<(u64, u64)>)
    ensures r.Ok? <==> offset.Some? && size.Some? && offset.value + size.value < U64_LIMIT
    ensures r.Ok? ==> r.value.0 == offset.value && r.value.1 - r.value.0 == size.value
  {
    if offset.None? || size.None? then Abort
    else if offset.value + size.value >= U64_LIMIT then Abort
    else Ok((offset.value, offset.value + size.value))
  }

  const CommandBufferKind: Kind := BareKind(CommandBufferId)

  /** Deletes the handles of `hs` one after the other, in list order, each as
      a command buffer; on success gives the remaining entries and the
      native command-buffer ids in the order they were taken. */
  function ConsumeAll(e: map<Handle, Entry>, hs: seq<Handle>): (r: Outcome<(map<Handle, Entry>, seq<NativeId>)>)
    decreases |hs|
  {
    if hs == [] then Ok((e, []))
    else
      match ConsumeAll(e, hs[..|hs| - 1])
      case Abort => Abort
      case Ok(done) =>
        match Take(done.0, hs[|hs| - 1], CommandBufferKind)
        case Abort => Abort
        case Ok(taken) => Ok((taken.0, done.1 + [taken.1.id]))
  }

  /** Once a prefix of the list fails to be consumed, the whole list fails. */
  lemma {:induction false} ConsumeAllPrefixAborts(e: map<Handle, Entry>, hs: seq<Handle>, i: nat)
    requires i <= |hs| && ConsumeAll(e, hs[..i]).Abort?
    ensures ConsumeAll(e, hs).Abort?
    decreases |hs| - i
  {
    if i < |hs| {
      var init := hs[..|hs| - 1];
      assert init[..i] == hs[..i];
      ConsumeAllPrefixAborts(e, init, i);
    } else {
      assert hs[..i] == hs;
    }
  }

  /** The native ids held by the command-buffer entries `hs`, in list order. */
  function SubmittedIds(e: map<Handle, Entry>, hs: seq<Handle>): (ids: seq<NativeId>)
    requires AllCommandBuffers(e, hs)
    ensures |ids| == |hs|
  {
    seq(|hs|, k requires 0 <= k < |hs| => e[hs[k]].payload.id)
  }

  /** No handle occurs twice in `hs`. */
  predicate Distinct(hs: seq<Handle>) {
    forall j, k :: 0 <= j < k < |hs| ==> hs[j] != hs[k]
  }

  /** Every handle of `hs` is a live command buffer of `e`. */
  predicate AllCommandBuffers(e: map<Handle, Entry>, hs: seq<Handle>) {
    forall k :: 0 <= k < |hs| ==> IsLive(e, hs[k], CommandBufferKind)
  }

  function Elems(hs: seq<Handle>): (r: set<Handle>) {
    set h | h in hs
  }

  /** Only adapters and devices own other entries, and every owner is live. */
  ghost predicate OwnersCanOwn(e: map<Handle, Entry>) {
    forall c :: c in e && e[c].owner.Some? ==> e[c].owner.value in e && CanOwn(e[e[c].owner.value].payload)
  }

  /** An entry that cannot own has no children in any part of the table. */
  lemma NoChildrenOfNonOwner(e: map<Handle, Entry>, part: map<Handle, Entry>, h: Handle)
    requires OwnersCanOwn(e) && h in e && !CanOwn(e[h].payload)
    requires forall c :: c in part ==> c in e && part[c] == e[c]
    ensures !HasChildren(part, h)
  {
  }

  /** `submit`'s consumption succeeds exactly when every listed handle is a
      live command buffer and none is listed twice; it then removes exactly
      the listed handles and yields their native ids in list order. */
  lemma {:induction false} ConsumeAllMeaning(e: map<Handle, Entry>, hs: seq<Handle>)
    requires OwnersCanOwn(e)
    ensures ConsumeAll(e, hs).Ok? <==> AllCommandBuffers(e, hs) && Distinct(hs)
    ensures ConsumeAll(e, hs).Ok? ==>
      && ConsumeAll(e, hs).value.0 == e - Elems(hs)
      && |ConsumeAll(e, hs).value.1| == |hs|
      && forall k :: 0 <= k < |hs| ==> ConsumeAll(e, hs).value.1[k] == e[hs[k]].payload.id
    decreases |hs|
  {
    if hs != [] {
      var init, last := hs[..|hs| - 1], hs[|hs| - 1];
      assert hs == init + [last];
      ConsumeAllMeaning(e, init);
      var done := ConsumeAll(e, init);
      if done.Ok? {
        var rest := done.value.0;
        assert Elems(hs) == Elems(init) + {last};
        if IsLive(rest, last, CommandBufferKind) {
          NoChildrenOfNonOwner(e, rest, last);
        }
        assert IsLive(rest, last, CommandBufferKind) <==> IsLive(e, last, CommandBufferKind) && last !in Elems(init);
        if AllCommandBuffers(e, hs) && Distinct(hs) {
          forall j | 0 <= j < |init|
            ensures init[j] != last
          {
            assert hs[j] != hs[|hs| - 1];
          }
        }
        if ConsumeAll(e, hs).Ok? {
          assert rest - {last} == e - Elems(hs);
        }
      } else {
        assert !(AllCommandBuffers(e, init) && Distinct(init));
      }
    }
  }

  /** A handle listed twice makes `submit` abort, whatever else the list holds. */
  lemma RepeatedHandleAborts(e: map<Handle, Entry>, hs: seq<Handle>, j: nat, k: nat)
    requires OwnersCanOwn(e)
    requires j < k < |hs| && hs[j] == hs[k]
    ensures ConsumeAll(e, hs) == Abort
  {
    ConsumeAllMeaning(e, hs);
  }

  /** A listed handle that is not a live command buffer makes `submit` abort. */
  lemma DeadHandleAborts(e: map<Handle, Entry>, hs: seq<Handle>, k: nat)
    requires OwnersCanOwn(e)
    requires k < |hs| && !IsLive(e, hs[k], CommandBufferKind)
    ensures ConsumeAll(e, hs) == Abort
  {
    ConsumeAllMeaning(e, hs);
  }

  /** After a successful `submit`, a later `submit` that lists any of the
      handles already submitted aborts. */
  lemma ResubmissionAborts(e: map<Handle, Entry>, hs: seq<Handle>, again: seq<Handle>, k: nat)
    requires OwnersCanOwn(e) && ConsumeAll(e, hs).Ok?
    requires k < |again| && again[k] in hs
    ensures ConsumeAll(ConsumeAll(e, hs).value.0, again) == Abort
  {
    ConsumeAllMeaning(e, hs);
    var rest := ConsumeAll(e, hs).value.0;
    assert again[k] !in rest;
    assert OwnersCanOwn(rest) by {
      forall c | c in rest && rest[c].owner.Some?
        ensures rest[c].owner.value in rest && CanOwn(rest[rest[c].owner.value].payload)
      {
        var o := rest[c].owner.value;
        assert CanOwn(e[o].payload);
        forall j | 0 <= j < |hs|
          ensures hs[j] != o
        {
          assert IsLive(e, hs[j], CommandBufferKind);
        }
      }
    }
    DeadHandleAborts(rest, again, k);
  }
}
