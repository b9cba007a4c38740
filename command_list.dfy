/**
 * The CommandList recorder. Every public operation is a fixed sequence of
 * requests to collaborators the list owns but whose internals are not part
 * of this model: the resource state tracker (barrier queue, pending and final
 * states), the four dynamic descriptor heaps (staging and committing
 * descriptors), the upload buffer and the native D3D12 command list. Each
 * request is an Event appended to the ghost `log`; the list's own state is
 * the tracked-object list, the bound descriptor heaps per heap type, the
 * cached root signature and the lazily obtained compute list.
 *
 * The class invariant (Valid) records that no native GPU command (copy,
 * resolve, upload, clear, draw, dispatch) and no Close is recorded while a
 * barrier handed to the tracker is still waiting to be flushed.
 */
module CommandListModel {
  import opened D3D
  import opened MipSchedule
  import ResourceModel

  /** A barrier handed to the resource state tracker; the "before" state is resolved by the tracker. */
  datatype Barrier =
    | Transition(res: Ptr, stateAfter: ResourceState, subresource: u32)
    | UavBarrier(res: Ptr)
    | AliasingBarrier(before: Ptr, after: Ptr)

  /** The view descriptions the list builds itself; anything a caller passes is Custom. */
  datatype ViewDesc =
    | DefaultView                          // no description: the resource's default view
    | Tex2DSrv(srgb: bool, mipLevels: nat) // GenerateMips source: all mips, sRGB view if requested
    | Tex2DUav(mipSlice: nat)              // GenerateMips destination mip
    | CubeArrayUav(mipSlice: nat)          // PanoToCubemap destination mip, six array slices
    | Custom(id: nat)

  /** A descriptor staged in a dynamic descriptor heap. */
  datatype Descriptor =
    | Srv(res: Ptr, desc: ViewDesc)
    | Uav(res: Ptr, desc: ViewDesc)
    | DefaultUav(handle: Ptr)              // a pipeline's null UAV, used for padding

  /** Root constants the list writes itself. */
  datatype Constants =
    | MipsConstants(srcMip: nat, numMips: nat, srcDimension: nat, srgb: bool)
    | CubeConstants(firstMip: nat, numMips: nat, cubemapSize: nat)
    | CallerConstants(id: nat)

  /** Calls on the native command list. */
  datatype NativeCall =
    | CopyResourceCall(dst: Ptr, src: Ptr)
    | ResolveSubresourceCall(dst: Ptr, dstSubresource: u32, src: Ptr, srcSubresource: u32)
    | UpdateSubresourcesCall(dst: Ptr, intermediate: Ptr, firstSubresource: u32, numSubresources: u32)
    | ClearRenderTargetViewCall(res: Ptr)
    | ClearDepthStencilViewCall(res: Ptr)
    | DrawInstancedCall(vertexCount: u32, instanceCount: u32, startVertex: u32, startInstance: u32)
    | DrawIndexedInstancedCall(indexCount: u32, instanceCount: u32, startIndex: u32, baseVertex: int, startInstance: u32)
    | DispatchCall(x: nat, y: nat, z: nat)
    | CloseCall
    | ResetAllocatorCall
    | ResetListCall
    | SetPipelineStateCall(pso: Ptr)
    | SetGraphicsRootSignatureCall(rootSignature: Ptr)
    | SetComputeRootSignatureCall(rootSignature: Ptr)
    | SetComputeRoot32BitConstantsCall(rootParameter: nat, constants: Constants)
    | SetDescriptorHeapsCall(heaps: seq<Ptr>)
    | IASetVertexBuffersCall(slot: u32, buffer: Ptr)
    | IASetIndexBufferCall(buffer: Ptr)
    | OMSetRenderTargetsCall(renderTargets: seq<Ptr>, depthStencil: Ptr)

  /** Work a copy list hands to its compute list. */
  datatype ForwardedOp =
    | GenerateMipsOp(texture: Ptr)
    | PanoToCubemapOp(cubemap: Ptr, pano: Ptr)

  datatype Event =
    | TrackerBarrier(barrier: Barrier)                          // ResourceStateTracker::ResourceBarrier
    | TrackerTransitionResource(res: Ptr, state: ResourceState) // ResourceStateTracker::TransitionResource
    | TrackerFlush                                              // ResourceStateTracker::FlushResourceBarriers
    | TrackerFlushPending(into: CommandList)                    // FlushPendingResourceBarriers(pending list)
    | TrackerCommitFinal                                        // CommitFinalResourceStates
    | TrackerReset
    | GlobalStateAdded(res: Ptr, state: ResourceState)          // ResourceStateTracker::AddGlobalResourceState
    | ResourceCreated(res: Ptr, size: u64, flags: ResourceFlags) // a committed buffer created
    | TextureCreated(res: Ptr, flags: ResourceFlags)            // a committed texture created
    | HeapCreated(heap: Ptr)
    | PlacedResourceCreated(res: Ptr, heap: Ptr, flags: ResourceFlags)
    | Tracked(obj: Ptr)                                         // kept alive until the list is reset
    | TrackedReleased
    | RootSignatureParsed(heapType: HeapType, rootSignature: Ptr)
    | DescriptorsStaged(heapType: HeapType, rootParameter: nat, offset: nat, count: nat, descriptor: Descriptor)
    | CommittedForDraw(heapType: HeapType)
    | CommittedForDispatch(heapType: HeapType)
    | DynamicHeapReset(heapType: HeapType)
    | UploadBufferReset
    | Native(call: NativeCall)
    | Forwarded(op: ForwardedOp)

  /** Commands that execute on the GPU (or end the recording): barriers must be flushed before them. */
  predicate NeedsFlushedBarriers(e: Event)
  {
    e.Native? &&
    (e.call.CopyResourceCall? || e.call.ResolveSubresourceCall? || e.call.UpdateSubresourcesCall? ||
     e.call.ClearRenderTargetViewCall? || e.call.ClearDepthStencilViewCall? ||
     e.call.DrawInstancedCall? || e.call.DrawIndexedInstancedCall? || e.call.DispatchCall? ||
     e.call.CloseCall?)
  }

  /** Does the tracker hold barriers that have not been flushed, after event e? (A reset discards them.) */
  predicate QueuedAfter(queued: bool, e: Event)
  {
    if e.TrackerBarrier? || e.TrackerTransitionResource? then true
    else if e.TrackerFlush? || e.TrackerReset? then false
    else queued
  }

  /**
   * Whether barriers are waiting in the tracker after the events of `log`.
   * Conservative: a subresource's first transition in a list, which the
   * tracker keeps on its pending list rather than as a barrier, counts too.
   */
  ghost function Queued(log: seq<Event>): bool
    decreases |log|
  {
    if log == [] then false else QueuedAfter(Queued(log[..|log| - 1]), log[|log| - 1])
  }

  /** The objects kept alive after the events of `log`: tracked since the last release. */
  ghost function TrackedIn(log: seq<Event>): seq<Ptr>
    decreases |log|
  {
    if log == [] then []
    else
      var e := log[|log| - 1];
      if e.Tracked? then TrackedIn(log[..|log| - 1]) + [e.obj]
      else if e.TrackedReleased? then []
      else TrackedIn(log[..|log| - 1])
  }

  /** No GPU command of `log` was recorded while barriers were queued. */
  ghost predicate Ordered(log: seq<Event>)
    decreases |log|
  {
    log == [] ||
    (var prefix := log[..|log| - 1];
     Ordered(prefix) && (NeedsFlushedBarriers(log[|log| - 1]) ==> !Queued(prefix)))
  }

  lemma AppendOne(log: seq<Event>, e: Event)
    ensures (log + [e])[..|log|] == log
    ensures Queued(log + [e]) == QueuedAfter(Queued(log), e)
  {
    assert (log + [e])[..|log|] == log;
  }

  // ---- Helpers: regrouping of concatenated event sequences ---------------------------
  // Assoc, AppendTwo/Four/Five, Steps and Steps3/5/6 state nothing about the
  // recorder; they only let proofs regroup long event sequences one step at a
  // time, which keeps each proof obligation small.

  /** Concatenation is associative; stated once so that long event sequences are regrouped step by step. */
  lemma Assoc(a: seq<Event>, b: seq<Event>, c: seq<Event>)
    ensures a + (b + c) == a + b + c
  {
  }

  lemma AppendTwo<T>(s: seq<T>, a: T, b: T)
    ensures s + [a] + [b] == s + [a, b]
  {
    assert [a] + [b] == [a, b];
  }

  lemma AppendFour<T>(s: seq<T>, a: T, b: T, c: T, d: T)
    ensures s + [a] + [b] + [c] + [d] == s + [a, b, c, d]
  {
    assert [a] + [b] + [c] + [d] == [a, b, c, d];
  }

  lemma AppendFive<T>(s: seq<T>, a: T, b: T, c: T, d: T, e: T)
    ensures s + [a] + [b] + [c] + [d] + [e] == s + [a, b, c, d, e]
  {
    assert [a] + [b] + [c] + [d] + [e] == [a, b, c, d, e];
  }

  /**
   * The steps of a composite operation, concatenated in order. Stating a
   * multi-step operation as Steps([a, b, c]) keeps its parts apart until a
   * proof asks for them (Steps5, Steps6).
   */
  function Steps(parts: seq<seq<Event>>): seq<Event>
    decreases |parts|
  {
    if parts == [] then [] else Steps(parts[..|parts| - 1]) + parts[|parts| - 1]
  }

  lemma Steps3(a: seq<Event>, b: seq<Event>, c: seq<Event>)
    ensures Steps([a, b, c]) == a + b + c
  {
    assert [a][..0] == [];
    assert Steps([a]) == a;
    assert [a, b][..1] == [a];
    assert Steps([a, b]) == a + b;
    assert [a, b, c][..2] == [a, b];
  }

  lemma Steps5(a: seq<Event>, b: seq<Event>, c: seq<Event>, d: seq<Event>, e: seq<Event>)
    ensures Steps([a, b, c, d, e]) == a + b + c + d + e
  {
    assert [a, b, c, d, e][..4] == [a, b, c, d];
    assert [a, b, c, d][..3] == [a, b, c];
    Steps3(a, b, c);
  }

  lemma Steps6(a: seq<Event>, b: seq<Event>, c: seq<Event>, d: seq<Event>, e: seq<Event>, f: seq<Event>)
    ensures Steps([a, b, c, d, e, f]) == a + b + c + d + e + f
  {
    assert [a, b, c, d, e, f][..5] == [a, b, c, d, e];
    Steps5(a, b, c, d, e);
  }

  lemma OrderedAppend(log: seq<Event>, e: Event)
    requires Ordered(log)
    requires NeedsFlushedBarriers(e) ==> !Queued(log)
    ensures Ordered(log + [e])
  {
    assert (log + [e])[..|log|] == log;
  }

  /** Ordered, stated for every position: each GPU command follows a flush of all earlier barriers. */
  lemma {:induction false} OrderedAt(log: seq<Event>, i: nat)
    requires Ordered(log) && i < |log| && NeedsFlushedBarriers(log[i])
    ensures !Queued(log[..i])
    decreases |log|
  {
    var prefix := log[..|log| - 1];
    if i < |log| - 1 {
      assert prefix[i] == log[i] && prefix[..i] == log[..i];
      OrderedAt(prefix, i);
    }
  }

  /** The compaction BindDescriptorHeaps performs: the non-null entries, in order. */
  function Compact(slots: seq<Ptr>): (r: seq<Ptr>)
    ensures |r| <= |slots|
    ensures forall i :: 0 <= i < |r| ==> r[i] != Null
    decreases |slots|
  {
    if slots == [] then []
    else Compact(slots[..|slots| - 1]) + (if slots[|slots| - 1] != Null then [slots[|slots| - 1]] else [])
  }

  /** Compaction keeps exactly the non-null entries. */
  lemma {:induction false} CompactMembers(slots: seq<Ptr>, x: Ptr)
    ensures x in Compact(slots) <==> x in slots && x != Null
    decreases |slots|
  {
    if slots != [] {
      var init := slots[..|slots| - 1];
      CompactMembers(init, x);
      assert slots == init + [slots[|slots| - 1]];
    }
  }

  /** Compaction distributes over concatenation, so the relative order of the kept entries is preserved. */
  lemma {:induction false} CompactConcat(a: seq<Ptr>, b: seq<Ptr>)
    ensures Compact(a + b) == Compact(a) + Compact(b)
    decreases |b|
  {
    if b == [] {
      assert a + b == a;
    } else {
      var b' := b[..|b| - 1];
      CompactConcat(a, b');
      assert (a + b)[..|a + b| - 1] == a + b';
      assert (a + b)[|a + b| - 1] == b[|b| - 1];
    }
  }

  /** A sequence without null entries is its own compaction. */
  lemma {:induction false} CompactNoNulls(slots: seq<Ptr>)
    requires forall i :: 0 <= i < |slots| ==> slots[i] != Null
    ensures Compact(slots) == slots
    decreases |slots|
  {
    if slots != [] {
      CompactNoNulls(slots[..|slots| - 1]);
    }
  }

  // ---- Event sequences of the individual operations --------------------------------

  /** TransitionBarrier on a resource: nothing for an empty resource. */
  function TransitionEvents(res: Ptr, stateAfter: ResourceState, subresource: u32): seq<Event>
  {
    if res == Null then [] else [TrackerBarrier(Transition(res, stateAfter, subresource))]
  }

  function FlushIf(flush: bool): seq<Event>
  {
    if flush then [TrackerFlush] else []
  }

  /** One transition per subresource first+i (32-bit wrap-around), i from `from` below `count`. */
  function SubresourceTransitions(res: Ptr, stateAfter: ResourceState, first: u32, from: nat, count: nat): seq<Event>
    decreases count - from
  {
    if from >= count then []
    else TransitionEvents(res, stateAfter, (first + from) % U32_MODULUS) + SubresourceTransitions(res, stateAfter, first, from + 1, count)
  }

  /**
   * The transitions SetShaderResourceView / SetUnorderedAccessView request:
   * one per listed subresource, or one for all subresources when the count is
   * ALL_SUBRESOURCES.
   */
  function ViewTransitions(res: Ptr, stateAfter: ResourceState, first: u32, count: u32): seq<Event>
  {
    if count < ALL_SUBRESOURCES then SubresourceTransitions(res, stateAfter, first, 0, count)
    else TransitionEvents(res, stateAfter, ALL_SUBRESOURCES)
  }

  /**
   * The view transitions, for a live resource, are exactly `count`
   * transitions of subresources first, first+1, … in that order (a single
   * all-subresource transition when count is ALL_SUBRESOURCES).
   */
  lemma {:induction false} ViewTransitionsExact(res: Ptr, stateAfter: ResourceState, first: u32, count: u32)
    requires res != Null
    ensures count < ALL_SUBRESOURCES ==>
      |ViewTransitions(res, stateAfter, first, count)| == count &&
      forall i :: 0 <= i < count ==>
        ViewTransitions(res, stateAfter, first, count)[i] == TrackerBarrier(Transition(res, stateAfter, (first + i) % U32_MODULUS))
    ensures count == ALL_SUBRESOURCES ==>
      ViewTransitions(res, stateAfter, first, count) == [TrackerBarrier(Transition(res, stateAfter, ALL_SUBRESOURCES))]
  {
    if count < ALL_SUBRESOURCES {
      SubresourceTransitionsExact(res, stateAfter, first, 0, count);
    }
  }

  lemma {:induction false} SubresourceTransitionsExact(res: Ptr, stateAfter: ResourceState, first: u32, from: nat, count: nat)
    requires res != Null && from <= count
    ensures |SubresourceTransitions(res, stateAfter, first, from, count)| == count - from
    ensures forall i :: 0 <= i < count - from ==>
      SubresourceTransitions(res, stateAfter, first, from, count)[i] == TrackerBarrier(Transition(res, stateAfter, (first + from + i) % U32_MODULUS))
    decreases count - from
  {
    if from < count {
      SubresourceTransitionsExact(res, stateAfter, first, from + 1, count);
      var rest := SubresourceTransitions(res, stateAfter, first, from + 1, count);
      var all := SubresourceTransitions(res, stateAfter, first, from, count);
      assert all == [TrackerBarrier(Transition(res, stateAfter, (first + from) % U32_MODULUS))] + rest;
      forall i | 0 < i < count - from
        ensures all[i] == TrackerBarrier(Transition(res, stateAfter, (first + from + i) % U32_MODULUS))
      {
        assert all[i] == rest[i - 1];
      }
    }
  }

  /** One commit request per heap type, from `first` on. */
  function Commits(forDraw: bool, first: nat): seq<Event>
    requires first <= NUM_HEAP_TYPES
    decreases NUM_HEAP_TYPES - first
  {
    if first == NUM_HEAP_TYPES then []
    else [if forDraw then CommittedForDraw(first) else CommittedForDispatch(first)] + Commits(forDraw, first + 1)
  }

  /** Draw, DrawIndexed and Dispatch: flush, commit every heap type, then the native call. */
  function DrawEvents(call: NativeCall): seq<Event>
  {
    [TrackerFlush] + Commits(!call.DispatchCall?, 0) + [Native(call)]
  }

  /** Root signature parsing in every dynamic heap, from heap type `first` on. */
  function Parses(rootSignature: Ptr, first: nat): seq<Event>
    requires first <= NUM_HEAP_TYPES
    decreases NUM_HEAP_TYPES - first
  {
    if first == NUM_HEAP_TYPES then [] else [RootSignatureParsed(first, rootSignature)] + Parses(rootSignature, first + 1)
  }

  /** Binding a root signature when `cached` is the one already bound. */
  function RootSignatureEvents(cached: Ptr, rootSignature: Ptr, compute: bool): seq<Event>
  {
    if cached == rootSignature then []
    else
      Parses(rootSignature, 0)
      + [Native(if compute then SetComputeRootSignatureCall(rootSignature) else SetGraphicsRootSignatureCall(rootSignature))]
      + [Tracked(rootSignature)]
  }

  /**
   * Re-binding the cached root signature records nothing; a different one is
   * parsed by each of the four dynamic heaps, in heap-type order, before it
   * is bound, and is then kept alive.
   */
  lemma RootSignatureEventsShape(cached: Ptr, rootSignature: Ptr, compute: bool)
    ensures cached == rootSignature <==> RootSignatureEvents(cached, rootSignature, compute) == []
    ensures var ev := RootSignatureEvents(cached, rootSignature, compute);
      cached != rootSignature ==>
        |ev| == NUM_HEAP_TYPES + 2 &&
        (forall i :: 0 <= i < NUM_HEAP_TYPES ==> ev[i] == RootSignatureParsed(i, rootSignature)) &&
        ev[NUM_HEAP_TYPES].Native? && ev[NUM_HEAP_TYPES + 1] == Tracked(rootSignature)
  {
    if cached != rootSignature {
      ParsesInOrder(rootSignature, 0);
      ParsedThenBound(Parses(rootSignature, 0),
        if compute then SetComputeRootSignatureCall(rootSignature) else SetGraphicsRootSignatureCall(rootSignature), rootSignature);
    }
  }

  /** The four parses in heap-type order, then the native call, then the tracking. */
  lemma ParsedThenBound(parses: seq<Event>, call: NativeCall, rootSignature: Ptr)
    requires |parses| == NUM_HEAP_TYPES
    requires forall i :: 0 <= i < |parses| ==> parses[i] == RootSignatureParsed(0 + i, rootSignature)
    ensures var ev := parses + [Native(call)] + [Tracked(rootSignature)];
      |ev| == NUM_HEAP_TYPES + 2 &&
      (forall i :: 0 <= i < NUM_HEAP_TYPES ==> ev[i] == RootSignatureParsed(i, rootSignature)) &&
      ev[NUM_HEAP_TYPES] == Native(call) && ev[NUM_HEAP_TYPES + 1] == Tracked(rootSignature)
  {
    var ev := parses + [Native(call)] + [Tracked(rootSignature)];
    forall i | 0 <= i < NUM_HEAP_TYPES
      ensures ev[i] == RootSignatureParsed(i, rootSignature)
    {
      assert ev[i] == parses[i];
    }
  }

  /** Parses(rs, first) holds one parse per heap type from `first` on, in heap-type order. */
  lemma {:induction false} ParsesInOrder(rootSignature: Ptr, first: nat)
    requires first <= NUM_HEAP_TYPES
    ensures |Parses(rootSignature, first)| == NUM_HEAP_TYPES - first
    ensures forall i :: 0 <= i < |Parses(rootSignature, first)| ==> Parses(rootSignature, first)[i] == RootSignatureParsed(first + i, rootSignature)
    decreases NUM_HEAP_TYPES - first
  {
    if first < NUM_HEAP_TYPES {
      var rest := Parses(rootSignature, first + 1);
      ParsesInOrder(rootSignature, first + 1);
      var all := [RootSignatureParsed(first, rootSignature)] + rest;
      assert Parses(rootSignature, first) == all;
      forall i | 0 < i < |all|
        ensures all[i] == RootSignatureParsed(first + i, rootSignature)
      {
        assert all[i] == rest[i - 1];
      }
    }
  }

  /** CopyResource: both transitions, a flush, the copy, then dst and src kept alive. */
  function CopyEvents(dst: Ptr, src: Ptr): seq<Event>
  {
    TransitionEvents(dst, STATE_COPY_DEST, ALL_SUBRESOURCES) + TransitionEvents(src, STATE_COPY_SOURCE, ALL_SUBRESOURCES)
      + [TrackerFlush, Native(CopyResourceCall(dst, src)), Tracked(dst), Tracked(src)]
  }

  /** The staging a view setter performs after its transitions. */
  function ViewEvents(rootParameter: nat, offset: nat, res: Ptr, stateAfter: ResourceState, first: u32, count: u32, d: Descriptor): seq<Event>
  {
    ViewTransitions(res, stateAfter, first, count) + [DescriptorsStaged(HEAP_CBV_SRV_UAV, rootParameter, offset, 1, d), Tracked(res)]
  }

  /** A render-target attachment, when present: its transition to `state`, then its tracking. */
  function AttachmentEvents(texture: Ptr, state: ResourceState): seq<Event>
  {
    if texture != Null then [TrackerBarrier(Transition(texture, state, ALL_SUBRESOURCES)), Tracked(texture)] else []
  }

  /** The colour attachments from `i` on, each to RENDER_TARGET. */
  function ColorTargetEvents(colors: seq<Ptr>, i: nat): seq<Event>
    decreases |colors| - i
  {
    if i >= |colors| then []
    else AttachmentEvents(colors[i], STATE_RENDER_TARGET) + ColorTargetEvents(colors, i + 1)
  }

  /** Reset of the per-heap-type state from `first` on. */
  function HeapResets(first: nat): seq<Event>
    requires first <= NUM_HEAP_TYPES
    decreases NUM_HEAP_TYPES - first
  {
    if first == NUM_HEAP_TYPES then [] else [DynamicHeapReset(first)] + HeapResets(first + 1)
  }

  /** The size CopyBuffer allocates: numElements * elementSize in a 64-bit size_t. */
  function BufferSize(numElements: u64, elementSize: u64): u64
  {
    (numElements * elementSize) % 0x1_0000_0000_0000_0000
  }

  /** The upload step of CopyBuffer, when there is data. */
  function UploadEvents(res: Ptr, hasData: bool, upload: Ptr): seq<Event>
  {
    if hasData then [TrackerTransitionResource(res, STATE_COPY_DEST), TrackerFlush,
                     Native(UpdateSubresourcesCall(res, upload, 0, 1)), Tracked(upload)]
    else []
  }

  /** Everything CopyBuffer records for a buffer of `size` bytes; nothing when it is empty. */
  function BufferEvents(res: Ptr, size: u64, flags: ResourceFlags, hasData: bool, upload: Ptr): seq<Event>
  {
    if res == Null then []
    else [ResourceCreated(res, size, flags), GlobalStateAdded(res, STATE_COMMON)] + UploadEvents(res, hasData, upload) + [Tracked(res)]
  }

  /**
   * A non-empty buffer is created with the requested size and flags, first
   * registered as COMMON, uploaded to (after a flushed COPY_DEST transition)
   * only when there is data, and kept alive last.
   */
  lemma BufferEventsShape(res: Ptr, size: u64, flags: ResourceFlags, hasData: bool, upload: Ptr)
    requires res != Null
    ensures var ev := BufferEvents(res, size, flags, hasData, upload);
      |ev| == (if hasData then 7 else 3) &&
      ev[0] == ResourceCreated(res, size, flags) && ev[1] == GlobalStateAdded(res, STATE_COMMON) &&
      ev[|ev| - 1] == Tracked(res) &&
      (hasData <==> Native(UpdateSubresourcesCall(res, upload, 0, 1)) in ev) &&
      (hasData ==> ev[3] == TrackerFlush && ev[4] == Native(UpdateSubresourcesCall(res, upload, 0, 1)))
  {
    var ev := BufferEvents(res, size, flags, hasData, upload);
    if hasData {
      assert ev[4] == Native(UpdateSubresourcesCall(res, upload, 0, 1));
    }
  }

  /** The size of one index CopyIndexBuffer uploads: 2 bytes for R16_UINT, 4 for anything else. */
  function IndexSize(format: Format): (r: nat)
    ensures r == 2 <==> format == FORMAT_R16_UINT
    ensures r == 2 || r == 4
  {
    if format == FORMAT_R16_UINT then 2 else 4
  }

  /** The pipeline state and root signature of a compute utility. */
  datatype Pipeline = Pipeline(pso: Ptr, rootSignature: Ptr, defaultUav: Ptr)

  /** The root parameters of the GenerateMips and PanoToCubemap root signatures. */
  const MIPS_CB_PARAM: nat := 0
  const MIPS_SRC_PARAM: nat := 1
  const MIPS_OUT_PARAM: nat := 2
  const CUBE_CB_PARAM: nat := 0
  const CUBE_SRC_PARAM: nat := 1
  const CUBE_DST_PARAM: nat := 2

  // ---- The compute utilities: GenerateMips and PanoToCubemap --------------------------

  /** The default-UAV padding of the slots [used, slots) of a root parameter. */
  function PaddingEvents(rootParameter: nat, used: nat, slots: nat, defaultUav: Ptr): seq<Event>
  {
    if used < slots then [DescriptorsStaged(HEAP_CBV_SRV_UAV, rootParameter, used, slots - used, DefaultUav(defaultUav))] else []
  }

  /** The UAVs of destination mips srcMip+1+mip .. srcMip+count, each at slot `mip` of the OutMip table. */
  function OutMipEvents(tex: Ptr, srcMip: nat, mip: nat, count: nat): seq<Event>
    decreases count - mip
  {
    if mip >= count then []
    else
      ViewEvents(MIPS_OUT_PARAM, mip, tex, STATE_UNORDERED_ACCESS, (srcMip + mip + 1) % U32_MODULUS, 1, Uav(tex, Tex2DUav(srcMip + mip + 1)))
      + OutMipEvents(tex, srcMip, mip + 1, count)
  }

  /**
   * One GenerateMips pass: its constants, the source mip as SRV, one UAV per
   * destination mip, padding up to four UAVs, the dispatch, a UAV barrier.
   */
  function MipsPassEvents(p: MipsPass, tex: Ptr, srgb: bool, levels: nat, defaultUav: Ptr): seq<Event>
  {
    Steps([
      [Native(SetComputeRoot32BitConstantsCall(MIPS_CB_PARAM, MipsConstants(p.srcMip, p.mipCount, p.srcDimension, srgb)))],
      ViewEvents(MIPS_SRC_PARAM, 0, tex, STATE_NON_PIXEL_SHADER_RESOURCE, p.srcMip % U32_MODULUS, 1, Srv(tex, Tex2DSrv(srgb, levels))),
      OutMipEvents(tex, p.srcMip, 0, p.mipCount),
      PaddingEvents(MIPS_OUT_PARAM, p.mipCount, MIPS_PER_PASS, defaultUav),
      DrawEvents(DispatchCall(p.groupsX, p.groupsY, 1)),
      [TrackerBarrier(UavBarrier(tex))]])
  }

  function MipsPassesEvents(ps: seq<MipsPass>, tex: Ptr, srgb: bool, levels: nat, defaultUav: Ptr): seq<Event>
    decreases |ps|
  {
    if ps == [] then [] else MipsPassEvents(ps[0], tex, srgb, levels, defaultUav) + MipsPassesEvents(ps[1..], tex, srgb, levels, defaultUav)
  }

  /** Binding a compute utility: its pipeline state, then its root signature. */
  function PipelineEvents(pipeline: Pipeline, cachedRootSignature: Ptr): seq<Event>
  {
    [Native(SetPipelineStateCall(pipeline.pso))] + RootSignatureEvents(cachedRootSignature, pipeline.rootSignature, true)
  }

  /** GenerateMips_UAV: bind the pipeline, then every pass of the schedule. */
  function MipsUavEvents(tex: Ptr, width: u64, height: u32, levels: nat, srgb: bool, pipeline: Pipeline, cachedRootSignature: Ptr): seq<Event>
  {
    PipelineEvents(pipeline, cachedRootSignature)
    + MipsPassesEvents(MipsSchedule(width, height, levels, 0), tex, srgb, levels, pipeline.defaultUav)
  }

  /**
   * What GenerateMips records before the passes when the texture cannot be
   * written through a UAV: a heap holding two placed resources (a copy of the
   * texture and a UAV-compatible alias of it), both registered as COMMON and
   * kept alive, the texture copied into the first, then an aliasing barrier
   * to the second.
   */
  function AliasPrologue(texture: Ptr, heap: Ptr, alias: Ptr, uav: Ptr, flags: ResourceFlags): seq<Event>
  {
    Steps([
      [HeapCreated(heap), Tracked(heap)],
      PlacedEvents(alias, heap, AliasFlags(flags)),
      PlacedEvents(uav, heap, AliasFlags(flags)),
      [TrackerBarrier(AliasingBarrier(Null, alias))],
      CopyEvents(alias, texture),
      [TrackerBarrier(AliasingBarrier(alias, uav))]])
  }

  /** A placed resource created in `heap`, registered as COMMON and kept alive. */
  function PlacedEvents(res: Ptr, heap: Ptr, flags: ResourceFlags): seq<Event>
  {
    [PlacedResourceCreated(res, heap, flags), GlobalStateAdded(res, STATE_COMMON), Tracked(res)]
  }

  /** ... and after the passes: an aliasing barrier back, then the copy into the texture. */
  function AliasEpilogue(texture: Ptr, alias: Ptr, uav: Ptr): seq<Event>
  {
    [TrackerBarrier(AliasingBarrier(uav, alias))] + CopyEvents(texture, alias)
  }

  /** The UAVs of cubemap mips firstMip+mip .. firstMip+count-1, six faces each, no transition. */
  function CubeUavEvents(target: Ptr, firstMip: nat, mip: nat, count: nat): seq<Event>
    decreases count - mip
  {
    if mip >= count then []
    else
      ViewEvents(CUBE_DST_PARAM, mip, target, STATE_UNORDERED_ACCESS, 0, 0, Uav(target, CubeArrayUav(firstMip + mip)))
      + CubeUavEvents(target, firstMip, mip + 1, count)
  }

  /**
   * One PanoToCubemap pass: its constants, the whole panorama as SRV, one UAV
   * per cubemap mip, padding up to five UAVs, a dispatch over the six faces.
   */
  function CubePassEvents(p: CubePass, pano: Ptr, target: Ptr, defaultUav: Ptr): seq<Event>
  {
    Steps([
      [Native(SetComputeRoot32BitConstantsCall(CUBE_CB_PARAM, CubeConstants(p.firstMip, p.numMips, p.cubemapSize)))],
      ViewEvents(CUBE_SRC_PARAM, 0, pano, STATE_NON_PIXEL_SHADER_RESOURCE, 0, ALL_SUBRESOURCES, Srv(pano, DefaultView)),
      CubeUavEvents(target, p.firstMip, 0, p.numMips),
      PaddingEvents(CUBE_DST_PARAM, p.numMips, CUBE_MIPS_PER_PASS, defaultUav),
      DrawEvents(DispatchCall(p.groups, p.groups, 6))])
  }

  function CubePassesEvents(ps: seq<CubePass>, pano: Ptr, target: Ptr, defaultUav: Ptr): seq<Event>
    decreases |ps|
  {
    if ps == [] then [] else CubePassEvents(ps[0], pano, target, defaultUav) + CubePassesEvents(ps[1..], pano, target, defaultUav)
  }

  /** Does PanoToCubemap need a UAV-capable staging copy of the cubemap? */
  predicate NeedsStaging(desc: ResourceDesc)
  {
    desc.flags & FLAG_ALLOW_UNORDERED_ACCESS == 0
  }

  /**
   * PanoToCubemap on a live cubemap: an optional staging texture (created in
   * COPY_DEST with UAV access added, filled from the cubemap), the target to
   * UNORDERED_ACCESS, the pipeline bound, every pass, and the copy back.
   */
  function CubemapEvents(cubemap: Ptr, pano: Ptr, desc: ResourceDesc, staging: Ptr, pipeline: Pipeline, cachedRootSignature: Ptr): seq<Event>
  {
    var target := if NeedsStaging(desc) then staging else cubemap;
    Steps([
      StagingEvents(cubemap, desc, staging),
      TransitionEvents(target, STATE_UNORDERED_ACCESS, ALL_SUBRESOURCES),
      PipelineEvents(pipeline, cachedRootSignature),
      CubePassesEvents(CubeSchedule(desc.width, desc.height, desc.mipLevels, 0), pano, target, pipeline.defaultUav),
      CopyBackEvents(cubemap, desc, staging)])
  }

  /** A cubemap without UAV access is staged: a texture created in COPY_DEST with UAV access added, filled from the cubemap. */
  function StagingEvents(cubemap: Ptr, desc: ResourceDesc, staging: Ptr): seq<Event>
  {
    if NeedsStaging(desc)
    then [TextureCreated(staging, desc.flags | FLAG_ALLOW_UNORDERED_ACCESS), GlobalStateAdded(staging, STATE_COPY_DEST)] + CopyEvents(staging, cubemap)
    else []
  }

  /** ... and copied back once the passes are recorded. */
  function CopyBackEvents(cubemap: Ptr, desc: ResourceDesc, staging: Ptr): seq<Event>
  {
    if NeedsStaging(desc) then CopyEvents(cubemap, staging) else []
  }

  /** The result of GenerateMips: an unsupported texture raises an exception and records nothing. */
  datatype MipsOutcome = MipsRecorded | MipsNotSupported

  class CommandList {
    const listType: ListType
    const device: Ptr
    const descriptorHeaps: array<Ptr>
    var trackedObjects: seq<Ptr>
    var rootSignature: Ptr
    var computeList: Ptr
    var mipsPipeline: Option<Pipeline>
    var cubePipeline: Option<Pipeline>
    ghost var log: seq<Event>
    ghost var queued: bool

    ghost predicate Valid()
      reads this
    {
      descriptorHeaps.Length == NUM_HEAP_TYPES &&
      device != Null &&
      queued == Queued(log) &&
      trackedObjects == TrackedIn(log) &&
      Ordered(log)
    }

    /** A new list: nothing tracked, no heaps bound, no root signature, no compute list. */
    constructor (device: Ptr, listType: ListType)
      requires device != Null
      ensures Valid() && fresh(descriptorHeaps)
      ensures this.listType == listType && this.device == device
      ensures descriptorHeaps[..] == [Null, Null, Null, Null]
      ensures trackedObjects == [] && rootSignature == Null && computeList == Null
      ensures mipsPipeline == None && cubePipeline == None
      ensures log == [] && !queued
    {
      this.listType := listType;
      this.device := device;
      descriptorHeaps := new Ptr[NUM_HEAP_TYPES](_ => Null);
      trackedObjects := [];
      rootSignature := Null;
      computeList := Null;
      mipsPipeline := None;
      cubePipeline := None;
      log := [];
      queued := false;
      new;
      assert descriptorHeaps[..] == [Null, Null, Null, Null];
    }

    /** Records a request to a collaborator or to the native list. */
    ghost method Emit(e: Event)
      requires Valid()
      requires !e.Tracked? && !e.TrackedReleased?
      requires NeedsFlushedBarriers(e) ==> !queued
      modifies this`log, this`queued
      ensures Valid()
      ensures log == old(log) + [e]
      ensures queued == QueuedAfter(old(queued), e)
    {
      AppendOne(log, e);
      OrderedAppend(log, e);
      log := log + [e];
      queued := QueuedAfter(queued, e);
    }

    /** Keeps an object alive until the list is reset. */
    method TrackResource(obj: Ptr)
      requires Valid()
      modifies this`trackedObjects, this`log
      ensures Valid()
      ensures trackedObjects == old(trackedObjects) + [obj]
      ensures log == old(log) + [Tracked(obj)]
    {
      AppendOne(log, Tracked(obj));
      OrderedAppend(log, Tracked(obj));
      trackedObjects := trackedObjects + [obj];
      log := log + [Tracked(obj)];
    }

    /** Releases every tracked object. */
    method ReleaseTrackedObjects()
      requires Valid()
      modifies this`trackedObjects, this`log
      ensures Valid()
      ensures trackedObjects == []
      ensures log == old(log) + [TrackedReleased]
    {
      AppendOne(log, TrackedReleased);
      OrderedAppend(log, TrackedReleased);
      trackedObjects := [];
      log := log + [TrackedReleased];
    }

    /** Hands the tracker's queued barriers to the native list. */
    method FlushResourceBarriers()
      requires Valid()
      modifies this`log, this`queued
      ensures Valid() && !queued
      ensures log == old(log) + [TrackerFlush]
    {
      Emit(TrackerFlush);
    }

    /** Queues a transition of a live resource (the tracker resolves the before state), optionally flushing. */
    method TransitionBarrier(res: Ptr, stateAfter: ResourceState, subresource: u32, flushBarriers: bool)
      requires Valid()
      modifies this`log, this`queued
      ensures Valid()
      ensures log == old(log) + TransitionEvents(res, stateAfter, subresource) + FlushIf(flushBarriers)
      ensures flushBarriers ==> !queued
      ensures !flushBarriers && res == Null ==> queued == old(queued)
    {
      if res != Null {
        Emit(TrackerBarrier(Transition(res, stateAfter, subresource)));
      }
      if flushBarriers {
        FlushResourceBarriers();
      }
    }

    /** Queues a UAV barrier (also for an empty resource: all UAV accesses), optionally flushing. */
    method UAVBarrier(res: Ptr, flushBarriers: bool)
      requires Valid()
      modifies this`log, this`queued
      ensures Valid()
      ensures log == old(log) + [TrackerBarrier(UavBarrier(res))] + FlushIf(flushBarriers)
      ensures queued == !flushBarriers
    {
      Emit(TrackerBarrier(UavBarrier(res)));
      if flushBarriers {
        FlushResourceBarriers();
      }
    }

    /** Queues an aliasing barrier between two placed resources, optionally flushing. */
    method AliasingBarrier(before: Ptr, after: Ptr, flushBarriers: bool)
      requires Valid()
      modifies this`log, this`queued
      ensures Valid()
      ensures log == old(log) + [TrackerBarrier(Barrier.AliasingBarrier(before, after))] + FlushIf(flushBarriers)
      ensures queued == !flushBarriers
    {
      Emit(TrackerBarrier(Barrier.AliasingBarrier(before, after)));
      if flushBarriers {
        FlushResourceBarriers();
      }
    }

    /** Copies a whole resource: dst to COPY_DEST, src to COPY_SOURCE, flush, copy, track dst then src. */
    method CopyResource(dst: Ptr, src: Ptr)
      requires Valid()
      modifies this`log, this`queued, this`trackedObjects
      ensures Valid() && !queued
      ensures log == old(log) + CopyEvents(dst, src)
      ensures trackedObjects == old(trackedObjects) + [dst, src]
    {
      TransitionPair(dst, STATE_COPY_DEST, ALL_SUBRESOURCES, src, STATE_COPY_SOURCE, ALL_SUBRESOURCES);
      var call := CopyResourceCall(dst, src);
      SubmitAndTrack(call, dst, src);
      Assoc(old(log), TransitionEvents(dst, STATE_COPY_DEST, ALL_SUBRESOURCES) + TransitionEvents(src, STATE_COPY_SOURCE, ALL_SUBRESOURCES),
            [TrackerFlush, Native(call), Tracked(dst), Tracked(src)]);
    }

    /** Queues the transitions of two resources (or subresources), in order, without flushing. */
    method TransitionPair(a: Ptr, stateA: ResourceState, subA: u32, b: Ptr, stateB: ResourceState, subB: u32)
      requires Valid()
      modifies this`log, this`queued
      ensures Valid()
      ensures log == old(log) + (TransitionEvents(a, stateA, subA) + TransitionEvents(b, stateB, subB))
    {
      TransitionBarrier(a, stateA, subA, false);
      TransitionBarrier(b, stateB, subB, false);
      assert FlushIf(false) == [];
      Assoc(old(log), TransitionEvents(a, stateA, subA), TransitionEvents(b, stateB, subB));
    }

    /** Flushes, records a native copy or resolve, then keeps its two resources alive in the given order. */
    method SubmitAndTrack(call: NativeCall, first: Ptr, second: Ptr)
      requires Valid()
      requires NeedsFlushedBarriers(Native(call))
      modifies this`log, this`queued, this`trackedObjects
      ensures Valid() && !queued
      ensures log == old(log) + [TrackerFlush, Native(call), Tracked(first), Tracked(second)]
      ensures trackedObjects == old(trackedObjects) + [first, second]
    {
      FlushResourceBarriers();
      Emit(Native(call));
      TrackResource(first);
      TrackResource(second);
      AppendFour(old(log), TrackerFlush, Native(call), Tracked(first), Tracked(second));
      AppendTwo(old(trackedObjects), first, second);
    }

    /** Resolves a multisampled subresource; tracks the source, then the destination. */
    method ResolveSubresource(dst: Ptr, src: Ptr, dstSubresource: u32, srcSubresource: u32)
      requires Valid()
      modifies this`log, this`queued, this`trackedObjects
      ensures Valid() && !queued
      ensures log == old(log) + TransitionEvents(dst, STATE_RESOLVE_DEST, dstSubresource)
        + TransitionEvents(src, STATE_RESOLVE_SOURCE, srcSubresource)
        + [TrackerFlush, Native(ResolveSubresourceCall(dst, dstSubresource, src, srcSubresource)), Tracked(src), Tracked(dst)]
      ensures trackedObjects == old(trackedObjects) + [src, dst]
    {
      TransitionPair(dst, STATE_RESOLVE_DEST, dstSubresource, src, STATE_RESOLVE_SOURCE, srcSubresource);
      SubmitAndTrack(ResolveSubresourceCall(dst, dstSubresource, src, srcSubresource), src, dst);
      Assoc(old(log), TransitionEvents(dst, STATE_RESOLVE_DEST, dstSubresource), TransitionEvents(src, STATE_RESOLVE_SOURCE, srcSubresource));
    }

    /**
     * The recording half of CopyBuffer: a buffer of `size` bytes is created
     * (`created` is what the device returns) and registered as COMMON; with
     * data, it goes to COPY_DEST, the upload resource is copied into it and
     * kept alive; the buffer itself is kept alive. A size of 0 records nothing.
     */
    method RecordBuffer(size: u64, flags: ResourceFlags, hasData: bool, created: Ptr, upload: Ptr)
      returns (res: Ptr)
      requires Valid()
      requires created != Null
      modifies this`log, this`queued, this`trackedObjects
      ensures Valid()
      ensures size == 0 <==> res == Null
      ensures res != Null ==> res == created
      ensures log == old(log) + BufferEvents(res, size, flags, hasData, upload)
    {
      if size == 0 {
        res := Null;
      } else {
        res := created;
        ghost var l0 := log;
        Emit(ResourceCreated(res, size, flags));
        Emit(GlobalStateAdded(res, STATE_COMMON));
        Upload(res, hasData, upload);
        TrackResource(res);
        assert log == l0 + ([ResourceCreated(res, size, flags), GlobalStateAdded(res, STATE_COMMON)]
                            + UploadEvents(res, hasData, upload) + [Tracked(res)]);
      }
    }

    /** Copies the upload resource into a live buffer, when there is data, and keeps the upload resource alive. */
    method Upload(res: Ptr, hasData: bool, upload: Ptr)
      requires Valid()
      modifies this`log, this`queued, this`trackedObjects
      ensures Valid()
      ensures log == old(log) + UploadEvents(res, hasData, upload)
    {
      if hasData {
        Emit(TrackerTransitionResource(res, STATE_COPY_DEST));
        FlushResourceBarriers();
        Emit(Native(UpdateSubresourcesCall(res, upload, 0, 1)));
        TrackResource(upload);
        AppendFour(old(log), TrackerTransitionResource(res, STATE_COPY_DEST), TrackerFlush,
                   Native(UpdateSubresourcesCall(res, upload, 0, 1)), Tracked(upload));
      }
    }

    /**
     * Creates a GPU buffer of numElements * elementSize bytes (an empty
     * resource when that is 0), uploads the data when there is any, and binds
     * the result to `buffer`. `created` and `upload` are the resources the
     * device creates, `queried` the format support it reports.
     */
    method CopyBuffer(buffer: ResourceModel.Resource, numElements: u64, elementSize: u64, hasData: bool,
                      flags: ResourceFlags, created: Ptr, upload: Ptr, queried: ResourceModel.FormatSupport)
      returns (res: Ptr)
      requires Valid()
      requires created != Null
      requires buffer.clearValue.None?
      modifies this`log, this`queued, this`trackedObjects, buffer
      ensures Valid()
      ensures BufferSize(numElements, elementSize) == 0 <==> res == Null
      ensures res != Null ==> res == created
      ensures log == old(log) + BufferEvents(res, BufferSize(numElements, elementSize), flags, hasData, upload)
      ensures buffer.device == device && buffer.handle == res && buffer.clearValue.None?
      ensures buffer.name == old(buffer.name)
      ensures buffer.formatSupport == (if res == Null then ResourceModel.NO_FORMAT_SUPPORT else queried)
      ensures buffer.log == old(buffer.log) + ResourceModel.Resource.NameEvents(res, old(buffer.name))
    {
      res := RecordBuffer(BufferSize(numElements, elementSize), flags, hasData, created, upload);
      buffer.SetD3D12Resource(device, res, None, queried);
    }

    /** CopyBuffer with the vertex stride as element size. */
    method CopyVertexBuffer(vertexBuffer: ResourceModel.Resource, numVertices: u64, vertexStride: u64, hasData: bool,
                            created: Ptr, upload: Ptr, queried: ResourceModel.FormatSupport)
      returns (res: Ptr)
      requires Valid()
      requires created != Null
      requires vertexBuffer.clearValue.None?
      modifies this`log, this`queued, this`trackedObjects, vertexBuffer
      ensures Valid()
      ensures BufferSize(numVertices, vertexStride) == 0 <==> res == Null
      ensures res != Null ==> res == created
      ensures log == old(log) + BufferEvents(res, BufferSize(numVertices, vertexStride), 0, hasData, upload)
      ensures vertexBuffer.handle == res
      ensures vertexBuffer.log == old(vertexBuffer.log) + ResourceModel.Resource.NameEvents(res, old(vertexBuffer.name))
    {
      res := CopyBuffer(vertexBuffer, numVertices, vertexStride, hasData, 0, created, upload, queried);
    }

    /** CopyBuffer with 2-byte elements for R16_UINT indices and 4-byte ones otherwise. */
    method CopyIndexBuffer(indexBuffer: ResourceModel.Resource, numIndices: u64, indexFormat: Format, hasData: bool,
                           created: Ptr, upload: Ptr, queried: ResourceModel.FormatSupport)
      returns (res: Ptr)
      requires Valid()
      requires created != Null
      requires indexBuffer.clearValue.None?
      modifies this`log, this`queued, this`trackedObjects, indexBuffer
      ensures Valid()
      ensures BufferSize(numIndices, IndexSize(indexFormat)) == 0 <==> res == Null
      ensures res != Null ==> res == created
      ensures log == old(log) + BufferEvents(res, BufferSize(numIndices, IndexSize(indexFormat)), 0, hasData, upload)
      ensures indexBuffer.handle == res
      ensures indexBuffer.log == old(indexBuffer.log) + ResourceModel.Resource.NameEvents(res, old(indexBuffer.name))
    {
      res := CopyBuffer(indexBuffer, numIndices, IndexSize(indexFormat), hasData, 0, created, upload, queried);
    }

    /** CopyBuffer of one element of bufferSize bytes, with UAV access allowed. */
    method CopyByteAddressBuffer(buffer: ResourceModel.Resource, bufferSize: u64, hasData: bool,
                                 created: Ptr, upload: Ptr, queried: ResourceModel.FormatSupport)
      returns (res: Ptr)
      requires Valid()
      requires created != Null
      requires buffer.clearValue.None?
      modifies this`log, this`queued, this`trackedObjects, buffer
      ensures Valid()
      ensures bufferSize == 0 <==> res == Null
      ensures res != Null ==> res == created
      ensures log == old(log) + BufferEvents(res, bufferSize, FLAG_ALLOW_UNORDERED_ACCESS, hasData, upload)
      ensures buffer.handle == res
      ensures buffer.log == old(buffer.log) + ResourceModel.Resource.NameEvents(res, old(buffer.name))
    {
      res := CopyBuffer(buffer, 1, bufferSize, hasData, FLAG_ALLOW_UNORDERED_ACCESS, created, upload, queried);
    }

    /** CopyBuffer of numElements elements of elementSize bytes, with UAV access allowed. */
    method CopyStructuredBuffer(buffer: ResourceModel.Resource, numElements: u64, elementSize: u64, hasData: bool,
                                created: Ptr, upload: Ptr, queried: ResourceModel.FormatSupport)
      returns (res: Ptr)
      requires Valid()
      requires created != Null
      requires buffer.clearValue.None?
      modifies this`log, this`queued, this`trackedObjects, buffer
      ensures Valid()
      ensures BufferSize(numElements, elementSize) == 0 <==> res == Null
      ensures res != Null ==> res == created
      ensures log == old(log) + BufferEvents(res, BufferSize(numElements, elementSize), FLAG_ALLOW_UNORDERED_ACCESS, hasData, upload)
      ensures buffer.handle == res
      ensures buffer.log == old(buffer.log) + ResourceModel.Resource.NameEvents(res, old(buffer.name))
    {
      res := CopyBuffer(buffer, numElements, elementSize, hasData, FLAG_ALLOW_UNORDERED_ACCESS, created, upload, queried);
    }

    /**
     * Uploads `numSubresources` subresources of a texture through an
     * intermediate upload resource (`intermediate`); nothing for an empty
     * texture.
     */
    method CopyTextureSubresource(texture: Ptr, firstSubresource: u32, numSubresources: u32, intermediate: Ptr)
      requires Valid()
      modifies this`log, this`queued, this`trackedObjects
      ensures Valid()
      ensures texture == Null ==> log == old(log)
      ensures texture != Null ==> !queued
      ensures texture != Null ==>
        log == old(log)
        + [TrackerBarrier(Transition(texture, STATE_COPY_DEST, ALL_SUBRESOURCES)), TrackerFlush,
           Native(UpdateSubresourcesCall(texture, intermediate, firstSubresource, numSubresources)),
           Tracked(intermediate), Tracked(texture)]
    {
      if texture != Null {
        TransitionBarrier(texture, STATE_COPY_DEST, ALL_SUBRESOURCES, false);
        FlushResourceBarriers();
        Emit(Native(UpdateSubresourcesCall(texture, intermediate, firstSubresource, numSubresources)));
        TrackResource(intermediate);
        TrackResource(texture);
      }
    }

    /** Binds a vertex buffer: transition to VERTEX_AND_CONSTANT_BUFFER, bind, track. */
    method SetVertexBuffer(slot: u32, vertexBuffer: Ptr)
      requires Valid()
      modifies this`log, this`queued, this`trackedObjects
      ensures Valid()
      ensures log == old(log) + TransitionEvents(vertexBuffer, STATE_VERTEX_AND_CONSTANT_BUFFER, ALL_SUBRESOURCES)
        + [Native(IASetVertexBuffersCall(slot, vertexBuffer)), Tracked(vertexBuffer)]
    {
      TransitionBarrier(vertexBuffer, STATE_VERTEX_AND_CONSTANT_BUFFER, ALL_SUBRESOURCES, false);
      Emit(Native(IASetVertexBuffersCall(slot, vertexBuffer)));
      TrackResource(vertexBuffer);
    }

    /** Binds an index buffer: transition to INDEX_BUFFER, bind, track. */
    method SetIndexBuffer(indexBuffer: Ptr)
      requires Valid()
      modifies this`log, this`queued, this`trackedObjects
      ensures Valid()
      ensures log == old(log) + TransitionEvents(indexBuffer, STATE_INDEX_BUFFER, ALL_SUBRESOURCES)
        + [Native(IASetIndexBufferCall(indexBuffer)), Tracked(indexBuffer)]
    {
      TransitionBarrier(indexBuffer, STATE_INDEX_BUFFER, ALL_SUBRESOURCES, false);
      Emit(Native(IASetIndexBufferCall(indexBuffer)));
      TrackResource(indexBuffer);
    }

    /** Binds a pipeline state object and keeps it alive. */
    method SetPipelineState(pso: Ptr)
      requires Valid()
      modifies this`log, this`queued, this`trackedObjects
      ensures Valid()
      ensures log == old(log) + [Native(SetPipelineStateCall(pso)), Tracked(pso)]
    {
      Emit(Native(SetPipelineStateCall(pso)));
      TrackResource(pso);
    }

    /** Sets root constants of the compute root signature. */
    method SetCompute32BitConstants(rootParameter: nat, constants: Constants)
      requires Valid()
      modifies this`log, this`queued
      ensures Valid()
      ensures log == old(log) + [Native(SetComputeRoot32BitConstantsCall(rootParameter, constants))]
    {
      Emit(Native(SetComputeRoot32BitConstantsCall(rootParameter, constants)));
    }

    /** The shared body of the two root-signature setters. */
    method SetRootSignature(rs: Ptr, compute: bool)
      requires Valid()
      modifies this`rootSignature, this`log, this`queued, this`trackedObjects
      ensures Valid()
      ensures rootSignature == rs
      ensures log == old(log) + RootSignatureEvents(old(rootSignature), rs, compute)
    {
      if rootSignature != rs {
        rootSignature := rs;
        ParseRootSignature(rs);
        var call := if compute then SetComputeRootSignatureCall(rs) else SetGraphicsRootSignatureCall(rs);
        Emit(Native(call));
        TrackResource(rs);
        Assoc(old(log), Parses(rs, 0) + [Native(call)], [Tracked(rs)]);
        Assoc(old(log), Parses(rs, 0), [Native(call)]);
      }
    }

    /** Every dynamic heap, in heap-type order, parses a new root signature. */
    method ParseRootSignature(rs: Ptr)
      requires Valid()
      modifies this`log, this`queued
      ensures Valid() && queued == old(queued)
      ensures log == old(log) + Parses(rs, 0)
    {
      var i := 0;
      while i < NUM_HEAP_TYPES
        invariant 0 <= i <= NUM_HEAP_TYPES
        invariant Valid() && queued == old(queued)
        invariant log + Parses(rs, i) == old(log) + Parses(rs, 0)
      {
        ghost var l := log;
        ghost var rest := Parses(rs, i + 1);
        Emit(RootSignatureParsed(i, rs));
        Assoc(l, [RootSignatureParsed(i, rs)], rest);
        i := i + 1;
      }
    }

    /** Binds a graphics root signature unless it is the cached one. */
    method SetGraphicsRootSignature(rs: Ptr)
      requires Valid()
      modifies this`rootSignature, this`log, this`queued, this`trackedObjects
      ensures Valid()
      ensures rootSignature == rs
      ensures log == old(log) + RootSignatureEvents(old(rootSignature), rs, false)
    {
      SetRootSignature(rs, false);
    }

    /** Binds a compute root signature unless it is the cached one. */
    method SetComputeRootSignature(rs: Ptr)
      requires Valid()
      modifies this`rootSignature, this`log, this`queued, this`trackedObjects
      ensures Valid()
      ensures rootSignature == rs
      ensures log == old(log) + RootSignatureEvents(old(rootSignature), rs, true)
    {
      SetRootSignature(rs, true);
    }

    /** The per-subresource transitions of a view setter, subresource first+i for i below count. */
    method TransitionSubresources(res: Ptr, stateAfter: ResourceState, firstSubresource: u32, numSubresources: nat)
      requires Valid()
      modifies this`log, this`queued
      ensures Valid()
      ensures log == old(log) + SubresourceTransitions(res, stateAfter, firstSubresource, 0, numSubresources)
    {
      var i: nat := 0;
      while i < numSubresources
        invariant i <= numSubresources
        invariant Valid()
        invariant log + SubresourceTransitions(res, stateAfter, firstSubresource, i, numSubresources)
               == old(log) + SubresourceTransitions(res, stateAfter, firstSubresource, 0, numSubresources)
        decreases numSubresources - i
      {
        ghost var l := log;
        ghost var t := TransitionEvents(res, stateAfter, (firstSubresource + i) % U32_MODULUS);
        ghost var rest := SubresourceTransitions(res, stateAfter, firstSubresource, i + 1, numSubresources);
        TransitionBarrier(res, stateAfter, (firstSubresource + i) % U32_MODULUS, false);
        assert FlushIf(false) == [];
        assert SubresourceTransitions(res, stateAfter, firstSubresource, i, numSubresources) == t + rest;
        Assoc(l, t, rest);
        i := i + 1;
      }
    }

    /** The shared body of the two view setters. */
    method SetView(rootParameter: nat, offset: nat, res: Ptr, stateAfter: ResourceState,
                   firstSubresource: u32, numSubresources: u32, d: Descriptor)
      requires Valid()
      modifies this`log, this`queued, this`trackedObjects
      ensures Valid()
      ensures log == old(log) + ViewEvents(rootParameter, offset, res, stateAfter, firstSubresource, numSubresources, d)
    {
      if numSubresources < ALL_SUBRESOURCES {
        TransitionSubresources(res, stateAfter, firstSubresource, numSubresources);
      } else {
        TransitionBarrier(res, stateAfter, ALL_SUBRESOURCES, false);
      }
      ghost var l := log;
      assert l == old(log) + ViewTransitions(res, stateAfter, firstSubresource, numSubresources);
      var staged := DescriptorsStaged(HEAP_CBV_SRV_UAV, rootParameter, offset, 1, d);
      Emit(staged);
      TrackResource(res);
      AppendTwo(l, staged, Tracked(res));
      Assoc(old(log), ViewTransitions(res, stateAfter, firstSubresource, numSubresources), [staged, Tracked(res)]);
    }

    /**
     * Transitions the listed subresources of `res` (or all of them), stages
     * one SRV at (rootParameter, offset) and tracks the resource.
     */
    method SetShaderResourceView(rootParameter: nat, offset: nat, res: Ptr, stateAfter: ResourceState,
                                 firstSubresource: u32, numSubresources: u32, desc: ViewDesc)
      requires Valid()
      modifies this`log, this`queued, this`trackedObjects
      ensures Valid()
      ensures log == old(log) + ViewEvents(rootParameter, offset, res, stateAfter, firstSubresource, numSubresources, Srv(res, desc))
    {
      SetView(rootParameter, offset, res, stateAfter, firstSubresource, numSubresources, Srv(res, desc));
    }

    /**
     * Transitions the listed subresources of `res` (or all of them), stages
     * one UAV at (rootParameter, offset) and tracks the resource.
     */
    method SetUnorderedAccessView(rootParameter: nat, offset: nat, res: Ptr, stateAfter: ResourceState,
                                  firstSubresource: u32, numSubresources: u32, desc: ViewDesc)
      requires Valid()
      modifies this`log, this`queued, this`trackedObjects
      ensures Valid()
      ensures log == old(log) + ViewEvents(rootParameter, offset, res, stateAfter, firstSubresource, numSubresources, Uav(res, desc))
    {
      SetView(rootParameter, offset, res, stateAfter, firstSubresource, numSubresources, Uav(res, desc));
    }

    /**
     * Binds the render target's attachments: every present colour texture (of
     * the eight) goes to RENDER_TARGET and is tracked, the depth texture, when
     * present, to DEPTH_WRITE; the present colour views are bound in
     * attachment order, together with the depth view if any.
     */
    method SetRenderTarget(colors: seq<Ptr>, depth: Ptr)
      requires Valid()
      requires |colors| == 8
      modifies this`log, this`queued, this`trackedObjects
      ensures Valid()
      ensures log == old(log) + ColorTargetEvents(colors, 0) + AttachmentEvents(depth, STATE_DEPTH_WRITE)
        + [Native(OMSetRenderTargetsCall(Compact(colors), depth))]
    {
      var renderTargets: seq<Ptr> := [];
      ghost var before := log;
      var i := 0;
      while i < 8
        invariant 0 <= i <= 8
        invariant Valid()
        invariant renderTargets == Compact(colors[..i])
        invariant log + ColorTargetEvents(colors, i) == before + ColorTargetEvents(colors, 0)
      {
        ghost var l := log;
        ghost var rest := ColorTargetEvents(colors, i + 1);
        BindAttachment(colors[i], STATE_RENDER_TARGET);
        if colors[i] != Null {
          renderTargets := renderTargets + [colors[i]];
        }
        assert colors[..i + 1] == colors[..i] + [colors[i]];
        Assoc(l, AttachmentEvents(colors[i], STATE_RENDER_TARGET), rest);
        i := i + 1;
      }
      assert colors[..8] == colors;
      BindAttachment(depth, STATE_DEPTH_WRITE);
      Emit(Native(OMSetRenderTargetsCall(renderTargets, depth)));
    }

    /** Transitions a present attachment to `state` and keeps it alive. */
    method BindAttachment(texture: Ptr, state: ResourceState)
      requires Valid()
      modifies this`log, this`queued, this`trackedObjects
      ensures Valid()
      ensures log == old(log) + AttachmentEvents(texture, state)
    {
      if texture != Null {
        TransitionBarrier(texture, state, ALL_SUBRESOURCES, false);
        TrackResource(texture);
      }
    }

    /** The shared body of Draw, DrawIndexed and Dispatch. */
    method Submit(call: NativeCall)
      requires Valid()
      requires NeedsFlushedBarriers(Native(call)) && !call.CloseCall?
      modifies this`log, this`queued
      ensures Valid() && !queued
      ensures log == old(log) + DrawEvents(call)
    {
      FlushResourceBarriers();
      var forDraw := !call.DispatchCall?;
      CommitStaged(forDraw);
      Emit(Native(call));
      Assoc(old(log), [TrackerFlush] + Commits(forDraw, 0), [Native(call)]);
      Assoc(old(log), [TrackerFlush], Commits(forDraw, 0));
    }

    /** Every dynamic heap, in heap-type order, commits its staged descriptors. */
    method CommitStaged(forDraw: bool)
      requires Valid() && !queued
      modifies this`log, this`queued
      ensures Valid() && !queued
      ensures log == old(log) + Commits(forDraw, 0)
    {
      var i := 0;
      while i < NUM_HEAP_TYPES
        invariant 0 <= i <= NUM_HEAP_TYPES
        invariant Valid() && !queued
        invariant log + Commits(forDraw, i) == old(log) + Commits(forDraw, 0)
      {
        ghost var l := log;
        ghost var rest := Commits(forDraw, i + 1);
        Emit(if forDraw then CommittedForDraw(i) else CommittedForDispatch(i));
        Assoc(l, [if forDraw then CommittedForDraw(i) else CommittedForDispatch(i)], rest);
        i := i + 1;
      }
    }

    /** Flushes barriers, commits staged descriptors of every heap type for drawing, then draws. */
    method Draw(vertexCount: u32, instanceCount: u32, startVertex: u32, startInstance: u32)
      requires Valid()
      modifies this`log, this`queued
      ensures Valid() && !queued
      ensures log == old(log) + DrawEvents(DrawInstancedCall(vertexCount, instanceCount, startVertex, startInstance))
    {
      Submit(DrawInstancedCall(vertexCount, instanceCount, startVertex, startInstance));
    }

    /** Flushes barriers, commits staged descriptors of every heap type for drawing, then draws indexed. */
    method DrawIndexed(indexCount: u32, instanceCount: u32, startIndex: u32, baseVertex: int, startInstance: u32)
      requires Valid()
      requires -0x8000_0000 <= baseVertex < 0x8000_0000
      modifies this`log, this`queued
      ensures Valid() && !queued
      ensures log == old(log) + DrawEvents(DrawIndexedInstancedCall(indexCount, instanceCount, startIndex, baseVertex, startInstance))
    {
      Submit(DrawIndexedInstancedCall(indexCount, instanceCount, startIndex, baseVertex, startInstance));
    }

    /** Flushes barriers, commits staged descriptors of every heap type for dispatch, then dispatches. */
    method Dispatch(x: nat, y: nat, z: nat)
      requires Valid()
      modifies this`log, this`queued
      ensures Valid() && !queued
      ensures log == old(log) + DrawEvents(DispatchCall(x, y, z))
    {
      Submit(DispatchCall(x, y, z));
    }

    /** Clears a colour texture: transition to RENDER_TARGET, flush, clear, track. */
    method ClearTexture(texture: Ptr)
      requires Valid()
      modifies this`log, this`queued, this`trackedObjects
      ensures Valid() && !queued
      ensures log == old(log) + TransitionEvents(texture, STATE_RENDER_TARGET, ALL_SUBRESOURCES)
        + [TrackerFlush, Native(ClearRenderTargetViewCall(texture)), Tracked(texture)]
    {
      TransitionBarrier(texture, STATE_RENDER_TARGET, ALL_SUBRESOURCES, true);
      Emit(Native(ClearRenderTargetViewCall(texture)));
      TrackResource(texture);
    }

    /** Clears a depth-stencil texture: transition to DEPTH_WRITE, flush, clear, track. */
    method ClearDepthStencilTexture(texture: Ptr)
      requires Valid()
      modifies this`log, this`queued, this`trackedObjects
      ensures Valid() && !queued
      ensures log == old(log) + TransitionEvents(texture, STATE_DEPTH_WRITE, ALL_SUBRESOURCES)
        + [TrackerFlush, Native(ClearDepthStencilViewCall(texture)), Tracked(texture)]
    {
      TransitionBarrier(texture, STATE_DEPTH_WRITE, ALL_SUBRESOURCES, true);
      Emit(Native(ClearDepthStencilViewCall(texture)));
      TrackResource(texture);
    }

    /**
     * Closes the list for submission: flush, native close, pending barriers
     * into `pending`, final states committed. `numPending` is the number of
     * pending barriers the tracker reports; the result says whether `pending`
     * must be executed first.
     */
    method Close(pending: CommandList, numPending: u32) returns (hasPending: bool)
      requires Valid()
      modifies this`log, this`queued
      ensures Valid() && !queued
      ensures hasPending <==> numPending > 0
      ensures log == old(log) + [TrackerFlush, Native(CloseCall), TrackerFlushPending(pending), TrackerCommitFinal]
    {
      FlushResourceBarriers();
      Emit(Native(CloseCall));
      Emit(TrackerFlushPending(pending));
      Emit(TrackerCommitFinal);
      hasPending := numPending > 0;
    }

    /** Closes the list without a pending-barrier handoff: flush, native close. */
    method CloseWithoutPending()
      requires Valid()
      modifies this`log, this`queued
      ensures Valid() && !queued
      ensures log == old(log) + [TrackerFlush, Native(CloseCall)]
    {
      FlushResourceBarriers();
      Emit(Native(CloseCall));
    }

    /**
     * Makes the list ready to record again: resets allocator, native list,
     * tracker and upload buffer, releases tracked objects, resets every
     * dynamic heap and unbinds its descriptor heap, and forgets the root
     * signature and the compute list.
     */
    method Reset()
      requires Valid()
      modifies this`log, this`queued, this`trackedObjects, this`rootSignature, this`computeList, descriptorHeaps
      ensures Valid()
      ensures trackedObjects == [] && rootSignature == Null && computeList == Null
      ensures descriptorHeaps[..] == [Null, Null, Null, Null]
      ensures log == old(log) + [Native(ResetAllocatorCall), Native(ResetListCall), TrackerReset, UploadBufferReset, TrackedReleased]
        + HeapResets(0)
    {
      ResetRecording();
      ghost var l := log;
      ResetDynamicHeaps();
      rootSignature := Null;
      computeList := Null;
      assert log == old(log) + [Native(ResetAllocatorCall), Native(ResetListCall), TrackerReset, UploadBufferReset, TrackedReleased]
        + HeapResets(0);
    }

    /** Resets allocator, native list, tracker and upload buffer, and releases the tracked objects. */
    method ResetRecording()
      requires Valid()
      modifies this`log, this`queued, this`trackedObjects
      ensures Valid() && !queued && trackedObjects == []
      ensures log == old(log) + [Native(ResetAllocatorCall), Native(ResetListCall), TrackerReset, UploadBufferReset, TrackedReleased]
    {
      Emit(Native(ResetAllocatorCall));
      Emit(Native(ResetListCall));
      Emit(TrackerReset);
      Emit(UploadBufferReset);
      ReleaseTrackedObjects();
      AppendFive(old(log), Native(ResetAllocatorCall), Native(ResetListCall), TrackerReset, UploadBufferReset, TrackedReleased);
    }

    /** Resets every dynamic descriptor heap and unbinds the descriptor heap of every type. */
    method ResetDynamicHeaps()
      requires Valid()
      modifies this`log, this`queued, descriptorHeaps
      ensures Valid() && queued == old(queued)
      ensures descriptorHeaps[..] == [Null, Null, Null, Null]
      ensures log == old(log) + HeapResets(0)
    {
      var i := 0;
      while i < NUM_HEAP_TYPES
        invariant 0 <= i <= NUM_HEAP_TYPES
        invariant Valid() && queued == old(queued)
        invariant log + HeapResets(i) == old(log) + HeapResets(0)
        invariant forall j :: 0 <= j < i ==> descriptorHeaps[j] == Null
      {
        ghost var l := log;
        Emit(DynamicHeapReset(i));
        Assoc(l, [DynamicHeapReset(i)], HeapResets(i + 1));
        descriptorHeaps[i] := Null;
        i := i + 1;
      }
      assert descriptorHeaps[..] == [Null, Null, Null, Null];
    }

    /** Binds `heap` for its type; only a change rebinds the heaps. */
    method SetDescriptorHeap(heapType: HeapType, heap: Ptr)
      requires Valid()
      modifies this`log, this`queued, descriptorHeaps
      ensures Valid()
      ensures descriptorHeaps[..] == old(descriptorHeaps[..])[heapType := heap]
      ensures old(descriptorHeaps[heapType]) == heap ==> log == old(log)
      ensures old(descriptorHeaps[heapType]) != heap ==>
        log == old(log) + [Native(SetDescriptorHeapsCall(Compact(descriptorHeaps[..])))]
    {
      if descriptorHeaps[heapType] != heap {
        descriptorHeaps[heapType] := heap;
        BindDescriptorHeaps();
      }
    }

    /** Binds the non-empty heap slots, compacted in heap-type order, with their count. */
    method BindDescriptorHeaps()
      requires Valid()
      modifies this`log, this`queued
      ensures Valid()
      ensures log == old(log) + [Native(SetDescriptorHeapsCall(Compact(descriptorHeaps[..])))]
    {
      var count := 0;
      var heaps := new Ptr[NUM_HEAP_TYPES](_ => Null);
      var i := 0;
      while i < NUM_HEAP_TYPES
        invariant 0 <= i <= NUM_HEAP_TYPES
        invariant count <= i
        invariant heaps[..count] == Compact(descriptorHeaps[..i])
        invariant Valid() && log == old(log)
        invariant descriptorHeaps[..] == old(descriptorHeaps[..])
      {
        assert descriptorHeaps[..i + 1][..i] == descriptorHeaps[..i];
        if descriptorHeaps[i] != Null {
          heaps[count] := descriptorHeaps[i];
          count := count + 1;
        }
        i := i + 1;
      }
      assert descriptorHeaps[..NUM_HEAP_TYPES] == descriptorHeaps[..];
      Emit(Native(SetDescriptorHeapsCall(heaps[..count])));
    }

    /** Lazily obtains the compute list a copy list forwards work to. */
    method EnsureComputeList(fromComputeQueue: Ptr)
      modifies this`computeList
      ensures computeList == if old(computeList) == Null then fromComputeQueue else old(computeList)
    {
      if computeList == Null {
        computeList := fromComputeQueue;
      }
    }

    /**
     * Generates the mip chain of a texture (its resource and description
     * given). A copy list forwards to its compute list; an empty texture or a
     * single mip records nothing; anything but a single-sample, single-slice
     * 2D texture is refused; a texture without UAV access goes through an
     * alias (heap, alias and uav are what the device creates); otherwise the
     * passes write the texture itself.
     */
    method GenerateMips(texture: Ptr, desc: ResourceDesc, uavSupported: bool, srgb: bool,
                        fromComputeQueue: Ptr, heap: Ptr, alias: Ptr, uav: Ptr, newPipeline: Pipeline)
      returns (outcome: MipsOutcome)
      requires Valid()
      requires desc.mipLevels >= 1
      requires heap != Null && alias != Null && uav != Null
      modifies this`log, this`queued, this`trackedObjects, this`rootSignature, this`mipsPipeline, this`computeList
      ensures Valid()
      ensures outcome == MipsNotSupported <==> PlanGenerateMips(listType, texture != Null, desc, uavSupported) == Unsupported
      ensures var plan := PlanGenerateMips(listType, texture != Null, desc, uavSupported);
        match plan
        case ForwardToCompute =>
          log == old(log) + [Forwarded(GenerateMipsOp(texture))] &&
          computeList == (if old(computeList) == Null then fromComputeQueue else old(computeList))
        case NothingToDo => log == old(log)
        case Unsupported => log == old(log)
        case InPlace =>
          mipsPipeline.Some? &&
          log == old(log) + MipsUavEvents(texture, desc.width, desc.height, desc.mipLevels, srgb, mipsPipeline.value, old(rootSignature))
        case ViaAlias =>
          mipsPipeline.Some? &&
          log == old(log) + AliasPrologue(texture, heap, alias, uav, desc.flags)
            + MipsUavEvents(uav, desc.width, desc.height, desc.mipLevels, srgb, mipsPipeline.value, old(rootSignature))
            + AliasEpilogue(texture, alias, uav)
      ensures listType != LIST_COPY ==> computeList == old(computeList)
    {
      var plan := PlanGenerateMips(listType, texture != Null, desc, uavSupported);
      outcome := MipsRecorded;
      match plan {
        case ForwardToCompute =>
          EnsureComputeList(fromComputeQueue);
          Emit(Forwarded(GenerateMipsOp(texture)));
        case NothingToDo =>
        case Unsupported =>
          outcome := MipsNotSupported;
        case InPlace =>
          GenerateMipsUAV(texture, desc.width, desc.height, desc.mipLevels, srgb, newPipeline);
        case ViaAlias =>
          GenerateMipsViaAlias(texture, desc, srgb, heap, alias, uav, newPipeline);
      }
    }

    /** GenerateMips through a UAV-compatible alias of the texture. */
    method GenerateMipsViaAlias(texture: Ptr, desc: ResourceDesc, srgb: bool, heap: Ptr, alias: Ptr, uav: Ptr, newPipeline: Pipeline)
      requires Valid()
      modifies this`log, this`queued, this`trackedObjects, this`rootSignature, this`mipsPipeline
      ensures Valid() && mipsPipeline.Some?
      ensures log == old(log) + AliasPrologue(texture, heap, alias, uav, desc.flags)
            + MipsUavEvents(uav, desc.width, desc.height, desc.mipLevels, srgb, mipsPipeline.value, old(rootSignature))
            + AliasEpilogue(texture, alias, uav)
    {
      RecordAlias(texture, heap, alias, uav, desc.flags);
      GenerateMipsUAV(uav, desc.width, desc.height, desc.mipLevels, srgb, newPipeline);
      RecordAliasBack(texture, alias, uav);
    }

    /** The alias hands the mips back: an aliasing barrier, then the copy into the texture. */
    method RecordAliasBack(texture: Ptr, alias: Ptr, uav: Ptr)
      requires Valid()
      modifies this`log, this`queued, this`trackedObjects
      ensures Valid()
      ensures log == old(log) + AliasEpilogue(texture, alias, uav)
    {
      ghost var b := [TrackerBarrier(Barrier.AliasingBarrier(uav, alias))];
      AliasingBarrier(uav, alias, false);
      assert FlushIf(false) == [] && log == old(log) + b;
      CopyResource(texture, alias);
      Assoc(old(log), b, CopyEvents(texture, alias));
    }

    /** The alias set-up of GenerateMips. */
    method RecordAlias(texture: Ptr, heap: Ptr, alias: Ptr, uav: Ptr, flags: ResourceFlags)
      requires Valid()
      modifies this`log, this`queued, this`trackedObjects
      ensures Valid()
      ensures log == old(log) + AliasPrologue(texture, heap, alias, uav, flags)
    {
      ghost var h := [HeapCreated(heap), Tracked(heap)];
      ghost var pa := PlacedEvents(alias, heap, AliasFlags(flags));
      ghost var pu := PlacedEvents(uav, heap, AliasFlags(flags));
      ghost var b0 := [TrackerBarrier(Barrier.AliasingBarrier(Null, alias))];
      ghost var c := CopyEvents(alias, texture);
      ghost var b1 := [TrackerBarrier(Barrier.AliasingBarrier(alias, uav))];
      Emit(HeapCreated(heap));
      TrackResource(heap);
      assert log == old(log) + h;
      CreatePlaced(alias, heap, AliasFlags(flags));
      CreatePlaced(uav, heap, AliasFlags(flags));
      ghost var l3 := log;
      AliasingBarrier(Null, alias, false);
      assert FlushIf(false) == [] && log == l3 + b0;
      CopyResource(alias, texture);
      ghost var l5 := log;
      AliasingBarrier(alias, uav, false);
      assert log == l5 + b1;
      Steps6(h, pa, pu, b0, c, b1);
      Assoc(old(log), h + pa + pu + b0 + c, b1);
      Assoc(old(log), h + pa + pu + b0, c);
      Assoc(old(log), h + pa + pu, b0);
      Assoc(old(log), h + pa, pu);
      Assoc(old(log), h, pa);
    }

    /** A placed resource in `heap`, registered as COMMON and kept alive. */
    method CreatePlaced(res: Ptr, heap: Ptr, flags: ResourceFlags)
      requires Valid()
      modifies this`log, this`queued, this`trackedObjects
      ensures Valid()
      ensures log == old(log) + PlacedEvents(res, heap, flags)
    {
      Emit(PlacedResourceCreated(res, heap, flags));
      Emit(GlobalStateAdded(res, STATE_COMMON));
      TrackResource(res);
    }

    /**
     * Writes mips 1 .. levels-1 of a texture that allows UAV access, pass by
     * pass as MipsSchedule lays them out; the pipeline is created on first use.
     */
    method GenerateMipsUAV(tex: Ptr, width: u64, height: u32, levels: u16, srgb: bool, newPipeline: Pipeline)
      requires Valid()
      modifies this`log, this`queued, this`trackedObjects, this`rootSignature, this`mipsPipeline
      ensures Valid()
      ensures mipsPipeline == if old(mipsPipeline).None? then Some(newPipeline) else old(mipsPipeline)
      ensures rootSignature == mipsPipeline.value.rootSignature
      ensures log == old(log) + MipsUavEvents(tex, width, height, levels, srgb, mipsPipeline.value, old(rootSignature))
    {
      if mipsPipeline.None? {
        mipsPipeline := Some(newPipeline);
      }
      var pipeline := mipsPipeline.value;
      BindComputePipeline(pipeline);
      RecordMipsPasses(tex, width, height, levels, srgb, pipeline.defaultUav);
      Assoc(old(log), PipelineEvents(pipeline, old(rootSignature)),
            MipsPassesEvents(MipsSchedule(width, height, levels, 0), tex, srgb, levels, pipeline.defaultUav));
    }

    /** The pipeline state of a compute utility, then its root signature. */
    method BindComputePipeline(pipeline: Pipeline)
      requires Valid()
      modifies this`log, this`queued, this`trackedObjects, this`rootSignature
      ensures Valid() && rootSignature == pipeline.rootSignature
      ensures log == old(log) + PipelineEvents(pipeline, old(rootSignature))
    {
      Emit(Native(SetPipelineStateCall(pipeline.pso)));
      SetComputeRootSignature(pipeline.rootSignature);
      Assoc(old(log), [Native(SetPipelineStateCall(pipeline.pso))], RootSignatureEvents(old(rootSignature), pipeline.rootSignature, true));
    }

    /** The GenerateMips passes, as MipsSchedule lays them out. */
    method RecordMipsPasses(tex: Ptr, width: u64, height: u32, levels: u16, srgb: bool, defaultUav: Ptr)
      requires Valid()
      modifies this`log, this`queued, this`trackedObjects
      ensures Valid()
      ensures log == old(log) + MipsPassesEvents(MipsSchedule(width, height, levels, 0), tex, srgb, levels, defaultUav)
    {
      var srcMip: nat := 0;
      while srcMip + 1 < levels
        invariant Valid()
        invariant log + MipsPassesEvents(MipsSchedule(width, height, levels, srcMip), tex, srgb, levels, defaultUav)
               == old(log) + MipsPassesEvents(MipsSchedule(width, height, levels, 0), tex, srgb, levels, defaultUav)
        decreases levels - srcMip
      {
        srcMip := RecordNextMipsPass(tex, width, height, levels, srgb, defaultUav, srcMip);
      }
    }

    /** The pass of MipsSchedule that reads mip `srcMip`; returns the mip the next one reads. */
    method RecordNextMipsPass(tex: Ptr, width: u64, height: u32, levels: u16, srgb: bool, defaultUav: Ptr, srcMip: nat)
      returns (next: nat)
      requires Valid() && srcMip + 1 < levels
      modifies this`log, this`queued, this`trackedObjects
      ensures Valid()
      ensures next == srcMip + MipsPassAt(width, height, levels, srcMip).mipCount
      ensures log + MipsPassesEvents(MipsSchedule(width, height, levels, next), tex, srgb, levels, defaultUav)
           == old(log) + MipsPassesEvents(MipsSchedule(width, height, levels, srcMip), tex, srgb, levels, defaultUav)
    {
      var p := MipsPassAt(width, height, levels, srcMip);
      next := srcMip + p.mipCount;
      ghost var rest := MipsSchedule(width, height, levels, next);
      assert MipsSchedule(width, height, levels, srcMip) == [p] + rest;
      assert ([p] + rest)[1..] == rest;
      RecordMipsPass(p, tex, srgb, levels, defaultUav);
      Assoc(old(log), MipsPassEvents(p, tex, srgb, levels, defaultUav), MipsPassesEvents(rest, tex, srgb, levels, defaultUav));
    }

    /** One GenerateMips pass. */
    method RecordMipsPass(p: MipsPass, tex: Ptr, srgb: bool, levels: nat, defaultUav: Ptr)
      requires Valid()
      modifies this`log, this`queued, this`trackedObjects
      ensures Valid()
      ensures log == old(log) + MipsPassEvents(p, tex, srgb, levels, defaultUav)
    {
      ghost var k := [Native(SetComputeRoot32BitConstantsCall(MIPS_CB_PARAM, MipsConstants(p.srcMip, p.mipCount, p.srcDimension, srgb)))];
      ghost var v := ViewEvents(MIPS_SRC_PARAM, 0, tex, STATE_NON_PIXEL_SHADER_RESOURCE, p.srcMip % U32_MODULUS, 1, Srv(tex, Tex2DSrv(srgb, levels)));
      ghost var u := OutMipEvents(tex, p.srcMip, 0, p.mipCount);
      ghost var pad := PaddingEvents(MIPS_OUT_PARAM, p.mipCount, MIPS_PER_PASS, defaultUav);
      ghost var d := DrawEvents(DispatchCall(p.groupsX, p.groupsY, 1));
      ghost var b := [TrackerBarrier(UavBarrier(tex))];
      SetCompute32BitConstants(MIPS_CB_PARAM, MipsConstants(p.srcMip, p.mipCount, p.srcDimension, srgb));
      SetShaderResourceView(MIPS_SRC_PARAM, 0, tex, STATE_NON_PIXEL_SHADER_RESOURCE, p.srcMip % U32_MODULUS, 1, Tex2DSrv(srgb, levels));
      SetOutMips(tex, p.srcMip, p.mipCount);
      PadAndDispatch(MIPS_OUT_PARAM, p.mipCount, MIPS_PER_PASS, defaultUav, DispatchCall(p.groupsX, p.groupsY, 1));
      ghost var l5 := log;
      UAVBarrier(tex, false);
      assert FlushIf(false) == [] && log == l5 + b;
      Steps6(k, v, u, pad, d, b);
      Assoc(old(log), k + v + u + pad + d, b);
      Assoc(old(log), k + v + u + pad, d);
      Assoc(old(log), k + v + u, pad);
      Assoc(old(log), k + v, u);
      Assoc(old(log), k, v);
    }

    /** The destination-mip UAVs of one GenerateMips pass. */
    method SetOutMips(tex: Ptr, srcMip: nat, mipCount: nat)
      requires Valid()
      modifies this`log, this`queued, this`trackedObjects
      ensures Valid()
      ensures log == old(log) + OutMipEvents(tex, srcMip, 0, mipCount)
    {
      var mip: nat := 0;
      while mip < mipCount
        invariant mip <= mipCount
        invariant Valid()
        invariant log + OutMipEvents(tex, srcMip, mip, mipCount) == old(log) + OutMipEvents(tex, srcMip, 0, mipCount)
        decreases mipCount - mip
      {
        ghost var l := log;
        ghost var rest := OutMipEvents(tex, srcMip, mip + 1, mipCount);
        SetUnorderedAccessView(MIPS_OUT_PARAM, mip, tex, STATE_UNORDERED_ACCESS, (srcMip + mip + 1) % U32_MODULUS, 1, Tex2DUav(srcMip + mip + 1));
        Assoc(l, ViewEvents(MIPS_OUT_PARAM, mip, tex, STATE_UNORDERED_ACCESS, (srcMip + mip + 1) % U32_MODULUS, 1, Uav(tex, Tex2DUav(srcMip + mip + 1))), rest);
        mip := mip + 1;
      }
    }

    /**
     * Renders a panorama into every mip of a cubemap, five mips per pass. A
     * copy list forwards to its compute list; the pipeline is created on
     * first use, even when the cubemap turns out to be empty; an empty cubemap
     * records nothing. `staging` is the texture the device creates when the
     * cubemap does not allow UAV access.
     */
    method PanoToCubemap(cubemap: Ptr, pano: Ptr, desc: ResourceDesc, fromComputeQueue: Ptr, staging: Ptr, newPipeline: Pipeline)
      requires Valid()
      requires staging != Null && staging != cubemap
      modifies this`log, this`queued, this`trackedObjects, this`rootSignature, this`cubePipeline, this`computeList
      ensures Valid()
      ensures listType == LIST_COPY ==>
        log == old(log) + [Forwarded(PanoToCubemapOp(cubemap, pano))] &&
        computeList == (if old(computeList) == Null then fromComputeQueue else old(computeList))
      ensures listType != LIST_COPY ==>
        cubePipeline == (if old(cubePipeline).None? then Some(newPipeline) else old(cubePipeline)) &&
        computeList == old(computeList)
      ensures listType != LIST_COPY && cubemap == Null ==> log == old(log)
      ensures listType != LIST_COPY && cubemap != Null ==>
        log == old(log) + CubemapEvents(cubemap, pano, desc, staging, cubePipeline.value, old(rootSignature))
    {
      if listType == LIST_COPY {
        EnsureComputeList(fromComputeQueue);
        Emit(Forwarded(PanoToCubemapOp(cubemap, pano)));
        return;
      }
      if cubePipeline.None? {
        cubePipeline := Some(newPipeline);
      }
      if cubemap == Null {
        return;
      }
      RecordCubemap(cubemap, pano, desc, staging, cubePipeline.value);
    }

    /** PanoToCubemap on a live cubemap, once its pipeline exists. */
    method RecordCubemap(cubemap: Ptr, pano: Ptr, desc: ResourceDesc, staging: Ptr, pipeline: Pipeline)
      requires Valid()
      requires staging != cubemap
      modifies this`log, this`queued, this`trackedObjects, this`rootSignature
      ensures Valid()
      ensures log == old(log) + CubemapEvents(cubemap, pano, desc, staging, pipeline, old(rootSignature))
    {
      ghost var rs := rootSignature;
      ghost var stg := StagingEvents(cubemap, desc, staging);
      var target := PrepareCubemapTarget(cubemap, desc, staging);
      ghost var t := TransitionEvents(target, STATE_UNORDERED_ACCESS, ALL_SUBRESOURCES);
      ghost var bind := PipelineEvents(pipeline, rs);
      ghost var passes := CubePassesEvents(CubeSchedule(desc.width, desc.height, desc.mipLevels, 0), pano, target, pipeline.defaultUav);
      ghost var back := CopyBackEvents(cubemap, desc, staging);
      ghost var l1 := log;
      TransitionBarrier(target, STATE_UNORDERED_ACCESS, ALL_SUBRESOURCES, false);
      assert FlushIf(false) == [] && l1 + t + [] == l1 + t;
      BindComputePipeline(pipeline);
      RecordCubePasses(pano, target, desc.width, desc.height, desc.mipLevels, pipeline.defaultUav);
      CopyBack(cubemap, desc, staging);
      Steps5(stg, t, bind, passes, back);
      Assoc(old(log), stg + t + bind + passes, back);
      Assoc(old(log), stg + t + bind, passes);
      Assoc(old(log), stg + t, bind);
      Assoc(old(log), stg, t);
    }

    /** Copies a staged cubemap back. */
    method CopyBack(cubemap: Ptr, desc: ResourceDesc, staging: Ptr)
      requires Valid()
      modifies this`log, this`queued, this`trackedObjects
      ensures Valid()
      ensures log == old(log) + CopyBackEvents(cubemap, desc, staging)
    {
      if NeedsStaging(desc) {
        CopyResource(cubemap, staging);
      }
    }

    /** The texture PanoToCubemap writes: the cubemap itself, or a staging copy when it lacks UAV access. */
    method PrepareCubemapTarget(cubemap: Ptr, desc: ResourceDesc, staging: Ptr) returns (target: Ptr)
      requires Valid()
      modifies this`log, this`queued, this`trackedObjects
      ensures Valid()
      ensures target == if NeedsStaging(desc) then staging else cubemap
      ensures log == old(log) + StagingEvents(cubemap, desc, staging)
    {
      target := cubemap;
      if NeedsStaging(desc) {
        target := staging;
        ghost var created := [TextureCreated(staging, desc.flags | FLAG_ALLOW_UNORDERED_ACCESS), GlobalStateAdded(staging, STATE_COPY_DEST)];
        Emit(TextureCreated(staging, desc.flags | FLAG_ALLOW_UNORDERED_ACCESS));
        Emit(GlobalStateAdded(staging, STATE_COPY_DEST));
        assert log == old(log) + created;
        CopyResource(staging, cubemap);
        Assoc(old(log), created, CopyEvents(staging, cubemap));
      }
    }

    /** The PanoToCubemap passes, as CubeSchedule lays them out. */
    method RecordCubePasses(pano: Ptr, target: Ptr, width: u64, height: u32, levels: u16, defaultUav: Ptr)
      requires Valid()
      modifies this`log, this`queued, this`trackedObjects
      ensures Valid()
      ensures log == old(log) + CubePassesEvents(CubeSchedule(width, height, levels, 0), pano, target, defaultUav)
    {
      var mipSlice: nat := 0;
      while mipSlice < levels
        invariant Valid()
        invariant log + CubePassesEvents(CubeSchedule(width, height, levels, mipSlice), pano, target, defaultUav)
               == old(log) + CubePassesEvents(CubeSchedule(width, height, levels, 0), pano, target, defaultUav)
        decreases levels - mipSlice
      {
        mipSlice := RecordNextCubePass(pano, target, width, height, levels, defaultUav, mipSlice);
      }
    }

    /** The pass of CubeSchedule that starts at `mipSlice`; returns where the next one starts. */
    method RecordNextCubePass(pano: Ptr, target: Ptr, width: u64, height: u32, levels: u16, defaultUav: Ptr, mipSlice: nat)
      returns (next: nat)
      requires Valid() && mipSlice < levels
      modifies this`log, this`queued, this`trackedObjects
      ensures Valid()
      ensures next == mipSlice + CubePassAt(width, height, levels, mipSlice).numMips
      ensures log + CubePassesEvents(CubeSchedule(width, height, levels, next), pano, target, defaultUav)
           == old(log) + CubePassesEvents(CubeSchedule(width, height, levels, mipSlice), pano, target, defaultUav)
    {
      var p := CubePassAt(width, height, levels, mipSlice);
      next := mipSlice + p.numMips;
      ghost var rest := CubeSchedule(width, height, levels, next);
      assert CubeSchedule(width, height, levels, mipSlice) == [p] + rest;
      assert ([p] + rest)[1..] == rest;
      RecordCubePass(p, pano, target, defaultUav);
      Assoc(old(log), CubePassEvents(p, pano, target, defaultUav), CubePassesEvents(rest, pano, target, defaultUav));
    }

    /** One PanoToCubemap pass. */
    method RecordCubePass(p: CubePass, pano: Ptr, target: Ptr, defaultUav: Ptr)
      requires Valid()
      modifies this`log, this`queued, this`trackedObjects
      ensures Valid()
      ensures log == old(log) + CubePassEvents(p, pano, target, defaultUav)
    {
      ghost var k := [Native(SetComputeRoot32BitConstantsCall(CUBE_CB_PARAM, CubeConstants(p.firstMip, p.numMips, p.cubemapSize)))];
      ghost var v := ViewEvents(CUBE_SRC_PARAM, 0, pano, STATE_NON_PIXEL_SHADER_RESOURCE, 0, ALL_SUBRESOURCES, Srv(pano, DefaultView));
      ghost var u := CubeUavEvents(target, p.firstMip, 0, p.numMips);
      ghost var pad := PaddingEvents(CUBE_DST_PARAM, p.numMips, CUBE_MIPS_PER_PASS, defaultUav);
      ghost var d := DrawEvents(DispatchCall(p.groups, p.groups, 6));
      SetCompute32BitConstants(CUBE_CB_PARAM, CubeConstants(p.firstMip, p.numMips, p.cubemapSize));
      SetShaderResourceView(CUBE_SRC_PARAM, 0, pano, STATE_NON_PIXEL_SHADER_RESOURCE, 0, ALL_SUBRESOURCES, DefaultView);
      SetCubeUavs(target, p.firstMip, p.numMips);
      PadAndDispatch(CUBE_DST_PARAM, p.numMips, CUBE_MIPS_PER_PASS, defaultUav, DispatchCall(p.groups, p.groups, 6));
      Steps5(k, v, u, pad, d);
      Assoc(old(log), k + v + u + pad, d);
      Assoc(old(log), k + v + u, pad);
      Assoc(old(log), k + v, u);
      Assoc(old(log), k, v);
    }

    /** The cubemap-mip UAVs of one PanoToCubemap pass. */
    method SetCubeUavs(target: Ptr, firstMip: nat, numMips: nat)
      requires Valid()
      modifies this`log, this`queued, this`trackedObjects
      ensures Valid()
      ensures log == old(log) + CubeUavEvents(target, firstMip, 0, numMips)
    {
      var mip: nat := 0;
      while mip < numMips
        invariant mip <= numMips
        invariant Valid()
        invariant log + CubeUavEvents(target, firstMip, mip, numMips) == old(log) + CubeUavEvents(target, firstMip, 0, numMips)
        decreases numMips - mip
      {
        ghost var l := log;
        ghost var rest := CubeUavEvents(target, firstMip, mip + 1, numMips);
        SetUnorderedAccessView(CUBE_DST_PARAM, mip, target, STATE_UNORDERED_ACCESS, 0, 0, CubeArrayUav(firstMip + mip));
        Assoc(l, ViewEvents(CUBE_DST_PARAM, mip, target, STATE_UNORDERED_ACCESS, 0, 0, Uav(target, CubeArrayUav(firstMip + mip))), rest);
        mip := mip + 1;
      }
    }

    /** Pads the unused UAV slots of a pass with the pipeline's default UAV, then dispatches. */
    method PadAndDispatch(rootParameter: nat, used: nat, slots: nat, defaultUav: Ptr, call: NativeCall)
      requires Valid()
      requires call.DispatchCall?
      modifies this`log, this`queued
      ensures Valid() && !queued
      ensures log == old(log) + PaddingEvents(rootParameter, used, slots, defaultUav) + DrawEvents(call)
    {
      if used < slots {
        Emit(DescriptorsStaged(HEAP_CBV_SRV_UAV, rootParameter, used, slots - used, DefaultUav(defaultUav)));
      }
      ghost var l := log;
      Dispatch(call.x, call.y, call.z);
    }
  }

  /** The events ClearTexture records as written: the transition is queued but not flushed before the clear. */
  function ClearTextureEventsAsWritten(texture: Ptr): seq<Event>
  {
    TransitionEvents(texture, STATE_RENDER_TARGET, ALL_SUBRESOURCES) + [Native(ClearRenderTargetViewCall(texture)), Tracked(texture)]
  }

  /** The events ClearDepthStencilTexture records as written. */
  function ClearDepthStencilEventsAsWritten(texture: Ptr): seq<Event>
  {
    TransitionEvents(texture, STATE_DEPTH_WRITE, ALL_SUBRESOURCES) + [Native(ClearDepthStencilViewCall(texture)), Tracked(texture)]
  }

  /**
   * Recorded as written, a clear of a live texture follows its own unflushed
   * transition, whatever was recorded before. Queued counts every transition
   * handed to the tracker, so this is a statement about the model's
   * conservative queue; in the program the tracker holds the transition as a
   * barrier (and the clear overtakes it) when the list already moved the
   * texture to another state, and otherwise resolves it through the pending
   * list before this list runs.
   */
  lemma ClearAsWrittenUnordered(log: seq<Event>, texture: Ptr)
    requires texture != Null
    ensures !Ordered(log + ClearTextureEventsAsWritten(texture))
    ensures !Ordered(log + ClearDepthStencilEventsAsWritten(texture))
  {
    var b1 := TrackerBarrier(Transition(texture, STATE_RENDER_TARGET, ALL_SUBRESOURCES));
    var l1 := log + ClearTextureEventsAsWritten(texture);
    assert l1[..|log| + 1] == log + [b1];
    AppendOne(log, b1);
    if Ordered(l1) {
      OrderedAt(l1, |log| + 1);
      assert false;
    }
    var b2 := TrackerBarrier(Transition(texture, STATE_DEPTH_WRITE, ALL_SUBRESOURCES));
    var l2 := log + ClearDepthStencilEventsAsWritten(texture);
    assert l2[..|log| + 1] == log + [b2];
    AppendOne(log, b2);
    if Ordered(l2) {
      OrderedAt(l2, |log| + 1);
      assert false;
    }
  }
}
