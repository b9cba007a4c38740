# LearningDirectX12 core, modelled in Dafny

This project models the orchestration layer of the LearningDirectX12
rendering framework (DX12Lib) and the frame pacing of its
alternate-frame-rendering sample (05-afr):

- **CommandList** (`command_list.dfy`, module `CommandListModel`): the
  command-list recorder. It is a class whose own state is:
  - the tracked-object list;
  - the four-slot descriptor-heap table;
  - the cached root signature;
  - the forwarded compute list;
  - the lazily created compute-utility pipelines.

  The collaborators the recorder drives are opaque. These are the resource
  state tracker, the four dynamic descriptor heaps, the upload buffer, the
  device and the native D3D12 list. Every request to them is an `Event`
  appended to a ghost log. The class invariant `Valid()` ties the tracked
  list and the "barriers queued" flag to that log. It also states
  `Ordered(log)`: no GPU command (copy, resolve, upload, clear, draw,
  dispatch, close) is recorded while barriers handed to the tracker are
  still unflushed. Every method keeps this invariant. Each method states its
  exact event sequence as a function of its inputs, and lemmas state what
  those sequences contain.
- **The two compute utilities of CommandList** (`mip_schedule.dfy`, module
  `MipSchedule`, and `compute_utilities.dfy`, module `ComputeUtilities`).
  These are the pure pass arithmetic of GenerateMips (up to four mips per
  dispatch, chosen from trailing zero bits) and of PanoToCubemap (up to five
  mips per dispatch). The recorder's loops are proved to follow these
  schedules. The lemmas then prove that every mip is written exactly once,
  in increasing order.
- **Device** (`device.dfy`, module `DeviceModel`): queue creation and
  routing, flush order, the descriptor-allocator fan-out, the MSAA quality
  search and the root-signature version fallback. It also holds the
  create-once / destroy singleton.
- **Resource** (`resource.dfy`, module `ResourceModel`): the value object
  with its handle, format-support record, optional clear value and name.
  It covers its constructors, its copy and move assignment, `Reset`,
  `SetName`, `SetD3D12Resource` and the format-support bit tests.
- **AFR frame pacing** (`afr_sample.dfy`, module `AfrSample`): the sample's
  global counters as a class. These are the shared fence counter, the
  per-back-buffer fence values, the frame index, the active GPU node and
  the client size.

Shared D3D12 types and constants are in `d3d.dfy` (module `D3D`).

Values that the system obtains from outside are parameters of the modelled
operations:
- objects the device creates;
- answers to feature queries;
- fence values the GPU has completed;
- the next node chosen by the affinity layer.

## Model

| member | source | states |
|---|---|---|
| CommandListModel.CommandList.constructor | DX12Lib/src/CommandList.cpp:52-73 | a new list tracks nothing, binds no descriptor heap of any of the four types, caches no root signature and has no compute list or utility pipelines |
| CommandListModel.CommandList.TrackResource | DX12Lib/src/CommandList.cpp:1119-1127 | the object is appended to the tracked list, and the invariant keeps the tracked list equal to what the log tracked since the last release |
| CommandListModel.CommandList.ReleaseTrackedObjects | DX12Lib/src/CommandList.cpp:1129-1132 | the tracked list becomes empty |
| CommandListModel.CommandList.FlushResourceBarriers | DX12Lib/src/CommandList.cpp:132-135 | after the flush no barrier is queued |
| CommandListModel.CommandList.TransitionBarrier | DX12Lib/src/CommandList.cpp:78-96 | a live resource's transition is queued (nothing for an empty resource); with flushBarriers the list ends with nothing queued |
| CommandListModel.CommandList.UAVBarrier | DX12Lib/src/CommandList.cpp:98-113 | a UAV barrier is queued even for an empty resource; barriers stay queued exactly when no flush was requested |
| CommandListModel.CommandList.AliasingBarrier | DX12Lib/src/CommandList.cpp:115-130 | an aliasing barrier between the two resources is queued; barriers stay queued exactly when no flush was requested |
| CommandListModel.CommandList.CopyResource | DX12Lib/src/CommandList.cpp:137-153 | dst goes to COPY_DEST, then src to COPY_SOURCE, then a flush, then the native copy, then dst and then src are tracked; the copy is recorded with nothing queued |
| CommandListModel.CommandList.ResolveSubresource | DX12Lib/src/CommandList.cpp:155-166 | dst goes to RESOLVE_DEST and src to RESOLVE_SOURCE (per subresource), barriers are flushed before the resolve, then src and dst are tracked in that order |
| CommandListModel.CommandList.RecordBuffer | DX12Lib/src/CommandList.cpp:169-224 | a size of 0 yields an empty resource and records nothing; otherwise the created buffer is registered as COMMON, uploaded after a flushed COPY_DEST transition only when there is data, and tracked |
| CommandListModel.BufferEventsShape | DX12Lib/src/CommandList.cpp:169-224 | a non-empty buffer's events start with its creation and COMMON registration and end with its tracking; the native upload happens iff there is data, right after a flush |
| CommandListModel.CommandList.CopyBuffer | DX12Lib/src/CommandList.cpp:169-224 | the buffer is empty iff numElements*elementSize (64-bit) is 0; the Buffer object is rebound to the device and the new resource, keeps its name, re-applies that name to the new resource, and gets the queried format support (none for an empty resource); the views CreateViews builds at line 223 are not modelled |
| CommandListModel.CommandList.CopyVertexBuffer | DX12Lib/src/CommandList.cpp:226-229 | CopyBuffer with the vertex stride as element size and no flags |
| CommandListModel.CommandList.CopyIndexBuffer | DX12Lib/src/CommandList.cpp:231-235 | CopyBuffer with 2-byte elements for R16_UINT and 4-byte ones otherwise |
| CommandListModel.IndexSize | DX12Lib/src/CommandList.cpp:233 | the index size is 2 exactly for R16_UINT, and 4 otherwise |
| CommandListModel.CommandList.CopyByteAddressBuffer | DX12Lib/src/CommandList.cpp:237-240 | CopyBuffer of one element of bufferSize bytes with UAV access |
| CommandListModel.CommandList.CopyStructuredBuffer | DX12Lib/src/CommandList.cpp:242-245 | CopyBuffer with UAV access |
| CommandListModel.CommandList.CopyTextureSubresource | DX12Lib/src/CommandList.cpp:772-801 | an empty texture records nothing; otherwise COPY_DEST transition, flush, the native upload of the listed subresources, then the intermediate and the texture are tracked |
| CommandListModel.CommandList.SetVertexBuffer | DX12Lib/src/CommandList.cpp:822-831 | transition to VERTEX_AND_CONSTANT_BUFFER, bind the view at the slot, track the buffer |
| CommandListModel.CommandList.SetIndexBuffer | DX12Lib/src/CommandList.cpp:848-857 | transition to INDEX_BUFFER, bind the view, track the buffer |
| CommandListModel.CommandList.SetPipelineState | DX12Lib/src/CommandList.cpp:909-914 | the pipeline state is bound and then kept alive |
| CommandListModel.CommandList.SetCompute32BitConstants | DX12Lib/src/CommandList.cpp:817-820 | the constants are set at the given root parameter and nothing else is recorded |
| CommandListModel.CommandList.SetRootSignature | DX12Lib/src/CommandList.cpp:916-950 | the cache holds the new root signature; the events are those of RootSignatureEvents for the old cache |
| CommandListModel.CommandList.SetGraphicsRootSignature | DX12Lib/src/CommandList.cpp:916-932 | as SetRootSignature, with the graphics bind call |
| CommandListModel.CommandList.SetComputeRootSignature | DX12Lib/src/CommandList.cpp:934-950 | as SetRootSignature, with the compute bind call |
| CommandListModel.RootSignatureEventsShape | DX12Lib/src/CommandList.cpp:916-950 | re-setting the cached root signature records nothing (and only that records nothing); a different one is parsed by all four dynamic heaps in heap-type order, then bound, then tracked |
| CommandListModel.ParsesInOrder | DX12Lib/src/CommandList.cpp:922-926 | one parse per heap type from `first` on, in heap-type order |
| CommandListModel.CommandList.ParseRootSignature | DX12Lib/src/CommandList.cpp:922-926 | the loop parses the root signature in every dynamic heap and leaves the barrier queue as it was |
| CommandListModel.CommandList.TransitionSubresources | DX12Lib/src/CommandList.cpp:960-966 | one transition per subresource first+i, i below the count, in increasing order |
| CommandListModel.ViewTransitionsExact | DX12Lib/src/CommandList.cpp:952-1000 | below ALL_SUBRESOURCES exactly `count` transitions of subresources first, first+1, … (none for 0); for ALL_SUBRESOURCES a single all-subresource transition |
| CommandListModel.SubresourceTransitionsExact | DX12Lib/src/CommandList.cpp:960-966 | the per-subresource transitions from `from` on, by position, with 32-bit wrap-around of the subresource index |
| CommandListModel.CommandList.SetShaderResourceView | DX12Lib/src/CommandList.cpp:952-975 | the view transitions, then exactly one SRV staged at (rootParameter, offset), then the resource tracked |
| CommandListModel.CommandList.SetUnorderedAccessView | DX12Lib/src/CommandList.cpp:977-1000 | the view transitions, then exactly one UAV staged at (rootParameter, offset), then the resource tracked |
| CommandListModel.CommandList.SetRenderTarget | DX12Lib/src/CommandList.cpp:1003-1039 | each present colour attachment of the eight goes to RENDER_TARGET and is tracked, in attachment order, then the depth attachment goes to DEPTH_WRITE; the bound views are exactly the present colour views, compacted in order |
| CommandListModel.CommandList.BindAttachment | DX12Lib/src/CommandList.cpp:1015-1033 | a present attachment is transitioned and tracked; an absent one records nothing |
| CommandListModel.CompactMembers | DX12Lib/src/CommandList.cpp:1143-1158 | the compaction holds exactly the non-null slots |
| CommandListModel.CompactConcat | DX12Lib/src/CommandList.cpp:1143-1158 | the compaction keeps the relative order of the slots |
| CommandListModel.CompactNoNulls | DX12Lib/src/CommandList.cpp:1143-1158 | a table without empty slots is passed unchanged |
| CommandListModel.CommandList.Submit | DX12Lib/src/CommandList.cpp:1041-1075 | flush, then every heap type commits its staged descriptors, then the native call; nothing is left queued |
| CommandListModel.CommandList.CommitStaged | DX12Lib/src/CommandList.cpp:1045-1048 | the four heap types commit in heap-type order, with the draw or the dispatch variant |
| CommandListModel.CommandList.Draw | DX12Lib/src/CommandList.cpp:1041-1051 | flush, commit all four heap types for drawing, then the draw |
| CommandListModel.CommandList.DrawIndexed | DX12Lib/src/CommandList.cpp:1053-1063 | flush, commit all four heap types for drawing, then the indexed draw |
| CommandListModel.CommandList.Dispatch | DX12Lib/src/CommandList.cpp:1065-1075 | flush, commit all four heap types for dispatch, then the dispatch |
| CommandListModel.OrderedAt | DX12Lib/src/CommandList.cpp:132-135 | in an ordered log every GPU command, at whatever position, follows a flush of all earlier barriers |
| CommandListModel.CommandList.ClearTexture | DX12Lib/src/CommandList.cpp:756-762 | corrected: transition to RENDER_TARGET, flush, clear, track; the clear is recorded with nothing queued |
| CommandListModel.CommandList.ClearDepthStencilTexture | DX12Lib/src/CommandList.cpp:764-770 | corrected: transition to DEPTH_WRITE, flush, clear, track |
| CommandListModel.ClearAsWrittenUnordered | DX12Lib/src/CommandList.cpp:756-770 | as written, a clear is recorded while its own transition is still queued in the model's conservative queue (Queued counts every transition handed to the tracker); in the program that transition is a queued barrier when the list already moved the texture to another state |
| CommandListModel.CommandList.Close | DX12Lib/src/CommandList.cpp:1077-1090 | flush, native close, pending barriers into the pending list, final states committed, in that order; the result is true iff the pending count is positive |
| CommandListModel.CommandList.CloseWithoutPending | DX12Lib/src/CommandList.cpp:1092-1096 | flush, then native close |
| CommandListModel.CommandList.Reset | DX12Lib/src/CommandList.cpp:1099-1117 | allocator, native list, tracker and upload buffer reset in that order, tracked objects released, every dynamic heap reset; all four heap slots empty, no root signature, no compute list |
| CommandListModel.CommandList.ResetRecording | DX12Lib/src/CommandList.cpp:1101-1107 | the resets in order, then the release of every tracked object |
| CommandListModel.CommandList.ResetDynamicHeaps | DX12Lib/src/CommandList.cpp:1109-1113 | every dynamic heap reset in heap-type order and every heap slot emptied |
| CommandListModel.CommandList.SetDescriptorHeap | DX12Lib/src/CommandList.cpp:1134-1141 | the slot of the heap type gets the heap and no other slot changes; the heaps are rebound iff the slot changed |
| CommandListModel.CommandList.BindDescriptorHeaps | DX12Lib/src/CommandList.cpp:1143-1158 | the bound heaps are exactly the non-null slots, compacted in heap-type order (their count is the length) |
| CommandListModel.CommandList.EnsureComputeList | DX12Lib/src/CommandList.cpp:390-393 | the compute list is obtained only when there is none yet |
| MipSchedule.PlanGenerateMips | DX12Lib/src/CommandList.cpp:386-426 | a copy list forwards; a missing resource or a single mip does nothing; anything but a single-slice, single-sample 2D texture is refused; the alias is used iff UAV access is missing |
| CommandListModel.CommandList.GenerateMips | DX12Lib/src/CommandList.cpp:386-516 | reports "not supported" iff the texture is refused; records exactly the plan's events: the forward, nothing, the in-place passes, or the alias prologue, passes on the alias and epilogue, with the clamped scan of Findings row 1 |
| MipSchedule.AliasFlags | DX12Lib/src/CommandList.cpp:430-433 | the alias allows UAV access, allows neither render target nor depth stencil, and keeps every other flag |
| CommandListModel.CommandList.GenerateMipsViaAlias | DX12Lib/src/CommandList.cpp:428-515 | alias set-up, then the passes on the UAV alias, then the copy back |
| CommandListModel.CommandList.RecordAlias | DX12Lib/src/CommandList.cpp:428-504 | heap created and tracked, alias and UAV resource placed (COMMON, tracked), aliasing barrier, copy into the alias, aliasing barrier to the UAV resource |
| CommandListModel.CommandList.CreatePlaced | DX12Lib/src/CommandList.cpp:466-492 | the placed resource is created, registered as COMMON and tracked |
| CommandListModel.CommandList.RecordAliasBack | DX12Lib/src/CommandList.cpp:510-515 | aliasing barrier back to the alias, then the copy into the texture |
| ComputeUtilities.GenerateMipsViaAliasWritesAlias | DX12Lib/src/CommandList.cpp:428-515 | through the alias every mip 1..levels-1 of the UAV resource is written once, in order, no mip of any other resource is written, and one dispatch is issued per pass |
| CommandListModel.CommandList.GenerateMipsUAV | DX12Lib/src/CommandList.cpp:518-606 | the pipeline is created only on first use; its state and root signature are bound, then the passes of MipsSchedule are recorded |
| CommandListModel.CommandList.BindComputePipeline | DX12Lib/src/CommandList.cpp:525-526 | the pipeline state, then the compute root signature (nothing when cached) |
| CommandListModel.CommandList.RecordMipsPasses | DX12Lib/src/CommandList.cpp:541-605 | the loop records exactly the passes of MipsSchedule from mip 0 |
| CommandListModel.CommandList.RecordNextMipsPass | DX12Lib/src/CommandList.cpp:541-605 | one iteration records the schedule's head pass and advances srcMip by its mip count |
| CommandListModel.CommandList.RecordMipsPass | DX12Lib/src/CommandList.cpp:580-602 | constants, SRV of the source mip, the destination UAVs, padding, dispatch, then a UAV barrier |
| CommandListModel.CommandList.SetOutMips | DX12Lib/src/CommandList.cpp:584-592 | slot `mip` binds mip srcMip+mip+1, for every mip of the pass, in order |
| ComputeUtilities.GenerateMipsWritesEachMipOnce | DX12Lib/src/CommandList.cpp:518-606 | mips 1..levels-1 of the texture are each bound as a UAV exactly once, in increasing order; no other resource is written; one dispatch per pass, with the clamped scan of Findings row 1 |
| MipSchedule.MipsPassAt | DX12Lib/src/CommandList.cpp:543-576 | a pass reads srcMip, writes 1 to 4 mips without passing the last one, has a 2-bit source discriminant, and dispatches enough 8x8 groups to cover the clamped destination size, with the clamped scan of Findings row 1 |
| MipSchedule.PassMipCount | DX12Lib/src/CommandList.cpp:565-568 | the mip count lies in 1..4 and never passes the last mip, with the clamped scan of Findings row 1 |
| MipSchedule.SrcDimension | DX12Lib/src/CommandList.cpp:552 | bit 0 is the width's parity and bit 1 the height's, so the value is below 4 |
| MipSchedule.DivideByMultiple | DX12Lib/src/CommandList.cpp:600 | the smallest number of blocks of `alignment` that covers the value |
| MipSchedule.MipsScheduleChained | DX12Lib/src/CommandList.cpp:541-605 | each pass reads the last mip its predecessor wrote, so srcMip strictly increases, and the last pass writes the last mip |
| MipSchedule.ChainedCoversEachMipOnce | DX12Lib/src/CommandList.cpp:541-605 | chained passes write srcMip+1..levels-1, each once, in order |
| MipSchedule.MipsScheduleCoversEachMipOnce | DX12Lib/src/CommandList.cpp:541-605 | every mip above the first is written exactly once, in increasing order, with the clamped scan of Findings row 1 |
| ComputeUtilities.MipsPassFillsOutMipTable | DX12Lib/src/CommandList.cpp:584-598 | the descriptors a recorded pass stages in the OutMip table cover slots 0..3 exactly once, in order: its own UAVs in slots 0..mipCount-1, then the default-UAV padding |
| ComputeUtilities.PaddingStages | DX12Lib/src/CommandList.cpp:594-598 | the recorded padding stages exactly the slots mipCount..3 (numMips..4 for a cube pass), and nothing when the pass is full |
| ComputeUtilities.PaddingBindsNothing | DX12Lib/src/CommandList.cpp:594-598 | the padding stages the default UAV only and writes no mip of any resource |
| MipSchedule.ScannedValue | DX12Lib/src/CommandList.cpp:562-573 | corrected: with the destination size clamped before the scan, the scanned value is never 0 |
| MipSchedule.ScanAgreesWhenNonZero | DX12Lib/src/CommandList.cpp:562-563 | whenever the scan as written finds a bit, the corrected scan gives the same value |
| MipSchedule.ScanAsWrittenZero | DX12Lib/src/CommandList.cpp:562-563 | the scan as written is 0 exactly when one destination dimension is at most 1 and the other is 0 |
| MipSchedule.WideTextureScansZero | DX12Lib/src/CommandList.cpp:541-568 | for a 2x1 texture with two mips, the scan as written is 0 while the corrected pass writes one mip |
| MipSchedule.TrailingZerosIsLowestSetBit | DX12Lib/src/CommandList.cpp:562 | the bit scan returns the index of the lowest set bit |
| MipSchedule.BitOrBounds | DX12Lib/src/CommandList.cpp:562-563 | the OR is 0 iff both operands are, and it is at least either operand |
| CommandListModel.CommandList.PanoToCubemap | DX12Lib/src/CommandList.cpp:608-710 | a copy list forwards; otherwise the pipeline is created on first use (even for an empty cubemap), an empty cubemap records nothing, and a live one records exactly CubemapEvents |
| CommandListModel.CommandList.RecordCubemap | DX12Lib/src/CommandList.cpp:630-709 | staging, UAV transition of the target, pipeline, passes, copy back, in that order |
| CommandListModel.CommandList.PrepareCubemapTarget | DX12Lib/src/CommandList.cpp:630-661 | the target is a staging copy (created with UAV access, registered COPY_DEST, filled from the cubemap) iff the cubemap lacks UAV access |
| CommandListModel.CommandList.CopyBack | DX12Lib/src/CommandList.cpp:706-709 | the staging copy is copied back iff one was used |
| CommandListModel.CommandList.RecordCubePasses | DX12Lib/src/CommandList.cpp:676-704 | the loop records exactly the passes of CubeSchedule from mip 0 |
| CommandListModel.CommandList.RecordNextCubePass | DX12Lib/src/CommandList.cpp:676-704 | one iteration records the schedule's head pass and advances mipSlice by its mip count |
| CommandListModel.CommandList.RecordCubePass | DX12Lib/src/CommandList.cpp:678-701 | constants, panorama SRV, the cube UAVs, padding, then a dispatch of six faces |
| CommandListModel.CommandList.SetCubeUavs | DX12Lib/src/CommandList.cpp:689-693 | slot `mip` binds array mip firstMip+mip of the target, with no transition |
| CommandListModel.CommandList.PadAndDispatch | DX12Lib/src/CommandList.cpp:594-600 | the unused slots are padded with the default UAV, then the dispatch follows with nothing queued |
| ComputeUtilities.PanoToCubemapWritesEachMipOnce | DX12Lib/src/CommandList.cpp:608-710 | every mip of the written texture (the staging copy when needed) is bound exactly once, in increasing order; no other resource is written; ceil(mipLevels/5) dispatches |
| MipSchedule.CubePassAt | DX12Lib/src/CommandList.cpp:678-700 | a pass writes 1 to 5 mips from mipSlice, fewer than 5 only for the last pass, with enough 16x16 groups to cover the face |
| MipSchedule.CubeScheduleCoversEachMipOnce | DX12Lib/src/CommandList.cpp:676-704 | mips mipSlice..levels-1 are written exactly once, in order, in ceil((levels-mipSlice)/5) passes |
| MipSchedule.CubemapSizeHalves | DX12Lib/src/CommandList.cpp:682 | the first face size is max(width as 32-bit, height), and each later mip's face is half the previous one |
| ComputeUtilities.CubePassFillsDstMipTable | DX12Lib/src/CommandList.cpp:689-699 | the descriptors a recorded cube pass stages in the DstMips table cover slots 0..4 exactly once, in order: its own cube UAVs, then the default-UAV padding |
| DeviceModel.HighestRootSignatureVersion | DX12Lib/src/Device.cpp:12-59 | the version is 1.0 iff the feature query fails or reports 1.0; it never exceeds the requested 1.1 |
| DeviceModel.Device.constructor | DX12Lib/src/Device.cpp:12-59 | the version is recorded with the 1.0 fallback; no queue exists yet |
| DeviceModel.Device.Init | DX12Lib/src/Device.cpp:61-72 | the direct, compute and copy queues are created in that order, then one descriptor allocator per heap type |
| DeviceModel.AllocatorCreations | DX12Lib/src/Device.cpp:67-71 | one allocator creation per heap type, in heap-type order |
| DeviceModel.DeviceSingleton.CreateDevice | DX12Lib/src/Device.cpp:74-82 | a device is constructed and initialised only when none exists, and an existing one is kept; a new device holds the given direct, compute and copy queues and has logged their creation in that order, then one allocator creation per heap type |
| DeviceModel.DeviceSingleton.DestroyDevice | DX12Lib/src/Device.cpp:84-92 | an existing device is flushed and the slot cleared; with no device nothing happens |
| DeviceModel.DeviceSingleton.Get | DX12Lib/src/Device.cpp:94-98 | returns the existing device |
| DeviceModel.Device.GetCommandQueue | DX12Lib/src/Device.cpp:250-269 | DIRECT, COMPUTE and COPY get a live queue each, and no other type does |
| DeviceModel.Device.QueuesAreDistinct | DX12Lib/src/Device.cpp:250-269 | distinct list types are served by distinct queues |
| DeviceModel.Device.Flush | DX12Lib/src/Device.cpp:271-276 | the copy, compute and direct queues are flushed in that order |
| DeviceModel.Device.AllocateDescriptors | DX12Lib/src/Device.cpp:278-281 | only the allocator of the requested heap type is asked |
| DeviceModel.Device.ReleaseStaleDescriptors | DX12Lib/src/Device.cpp:283-289 | the loop forwards the finished frame to every allocator |
| DeviceModel.StaleReleasesReachEveryAllocator | DX12Lib/src/Device.cpp:283-289 | every heap type's allocator is reached exactly once, in heap-type order, with the same finished frame |
| DeviceModel.Device.GetMultisampleQualityLevels | DX12Lib/src/Device.cpp:222-243 | the result is {1,0} unless the one-sample query succeeds; the count is a power of two; every power of two up to it succeeded; the quality is its level count minus one; the next power of two is not supported |
| DeviceModel.MsaaSearchResult | DX12Lib/src/Device.cpp:232-240 | the doubling search returns the last supported power of two before the first failure |
| DeviceModel.PowerOfTwoGap | DX12Lib/src/Device.cpp:239 | no power of two lies strictly between p and 2p, so doubling visits every candidate count |
| ResourceModel.Supports | DX12Lib/src/Resource.cpp:146-154 | a capability test succeeds only when mask and flags share a bit, and always when every queried flag is in the mask |
| ResourceModel.Resource.CheckFormatSupport1 | DX12Lib/src/Resource.cpp:146-149 | true iff the SUPPORT1 mask shares a bit with the flags |
| ResourceModel.Resource.CheckFormatSupport2 | DX12Lib/src/Resource.cpp:151-154 | true iff the SUPPORT2 mask shares a bit with the flags |
| ResourceModel.Resource.Named | DX12Lib/src/Resource.cpp:8-14 | no device, no resource, no capabilities, no clear value, the given name |
| ResourceModel.Resource.ForDevice | DX12Lib/src/Resource.cpp:16-20 | bound to the device without a resource |
| ResourceModel.Resource.Create | DX12Lib/src/Resource.cpp:22-45 | the created resource is registered as COMMON, gets the optional clear value and the queried capabilities, and is named |
| ResourceModel.Resource.Wrap | DX12Lib/src/Resource.cpp:47-54 | wraps the resource with the queried capabilities (none without a resource) and names it |
| ResourceModel.Resource.Copy | DX12Lib/src/Resource.cpp:56-62 | copies every field; the source must hold a clear value |
| ResourceModel.Resource.Move | DX12Lib/src/Resource.cpp:64-70 | takes every field; the source keeps only its format support and has an empty name |
| ResourceModel.Resource.CopyAssign | DX12Lib/src/Resource.cpp:72-87 | from a distinct object: device, resource, capabilities and name copied; the clear value only when the source has one; self-assignment changes nothing |
| ResourceModel.Resource.MoveAssign | DX12Lib/src/Resource.cpp:89-103 | from a distinct object: every field transferred and the source left in the Reset state; self-assignment changes nothing |
| ResourceModel.Resource.SetD3D12Resource | DX12Lib/src/Resource.cpp:110-127 | a clear value is present afterwards iff it was before, and is then the argument; capabilities re-queried; the old name re-applied |
| ResourceModel.Resource.SetName | DX12Lib/src/Resource.cpp:129-136 | the name is always stored; it is forwarded only when a resource exists and the name is non-empty |
| ResourceModel.Resource.Reset | DX12Lib/src/Resource.cpp:138-144 | handle, capabilities, clear value and name are cleared, so every capability query is false |
| ResourceModel.Resource.CheckFeatureSupport | DX12Lib/src/Resource.cpp:156-173 | the capabilities are the device's answer, or none without a resource, in which case every query is false |
| AfrSample.BufferCounts | Samples/05-afr/src/main.cpp:934-939 | several nodes: one back buffer per node and one frame; one node: two and two; back buffers = frames × nodes |
| AfrSample.FramePacing.constructor | Samples/05-afr/src/main.cpp:934-939 | the fence table has one zero entry per back buffer; node 0, frame 0 |
| AfrSample.FramePacing.Signal | Samples/05-afr/src/main.cpp:528-535 | pre-increments the shared counter and returns the new value, so successive values strictly increase |
| AfrSample.FramePacing.WaitForFenceValue | Samples/05-afr/src/main.cpp:537-545 | blocks iff the completed value is below the requested one |
| AfrSample.FramePacing.Flush | Samples/05-afr/src/main.cpp:547-552 | signals once and waits on exactly the value signalled |
| AfrSample.PresentStep | Samples/05-afr/src/main.cpp:617-622 | the frame index advances by one modulo the frame count iff the new node is 0, otherwise it is unchanged; both stay in range |
| AfrSample.FramePacing.Present | Samples/05-afr/src/main.cpp:597-623 | only the back buffer's fence entry changes, to a value above every earlier entry; node and frame advance as PresentStep says |
| AfrSample.NodesShareTheFrame | Samples/05-afr/src/main.cpp:617-622 | from node 0, the first nodeCount-1 presents keep the frame index |
| AfrSample.FrameAdvancesOncePerRound | Samples/05-afr/src/main.cpp:617-622 | from node 0, nodeCount presents return to node 0 with the frame index advanced by one |
| AfrSample.FramePacing.Render | Samples/05-afr/src/main.cpp:625-674 | waits on the back buffer's fence value before the allocator of the current frame index is reset, then draws and presents |
| AfrSample.ClearColorRow | Samples/05-afr/src/main.cpp:643-648 | corrected: the row is always inside the two-row table and agrees with the code for nodes 0 and 1 |
| AfrSample.ClearColorRowOutOfTable | Samples/05-afr/src/main.cpp:643-648 | as written, with three nodes the third node reads past the table |
| AfrSample.FramePacing.Resize | Samples/05-afr/src/main.cpp:676-703 | width and height are clamped to at least 1; only a changed size is stored, flushed and rebuilt |

## Left out

- The resource state tracker, dynamic descriptor heaps, upload buffer, descriptor allocators and command queues: their sources are not part of this model. Their calls are logged, and their answers are parameters.
- Texture loading and the texture cache (CommandList.cpp 252-384): file I/O, image decoders and a mutex-guarded process-wide map.
- LoadSceneFromFile (CommandList.cpp 712-754): it is an empty stub.
- Floating point: TexelSize, the sample's Update matrices, viewports, clear colours and depth values.
- Win32 and adapter plumbing: window creation, the message loop, argument parsing, adapter enumeration and device and debug-layer creation. Failures of device, allocator or resource creation (ThrowIfFailed) are not modelled either: creation is assumed to succeed.
- Device node-query wrappers (Device.cpp 197-220) and the atomic frame counter (Device.cpp 8), which exists only for concurrency.
- SetPrimitiveTopology, the dynamic-buffer setters, viewports and scissor rects, and SetGraphics32BitConstants: they are single forwarding calls outside the listed core.
- The CreateViews and SetName calls on the GenerateMips UAV alias and on the PanoToCubemap staging texture: views and names have no effect on the recorded order.
- The work a copy list forwards to its compute list is logged as one Forwarded event; what the compute list then records is not modelled.
- CommandList.h is not part of this model. Its defaults are taken as flushBarriers false, the SRV/UAV view-setter defaults (first subresource 0, ALL_SUBRESOURCES), a Dispatch z of 1 and the root-parameter indices of the two compute utilities.
- AfrSample.FramePacing.Present: SwitchToNextNode belongs to the affinity library. It is a parameter with the round-robin result as a precondition.
- MipSchedule.MipsPassAt: the shifts of the source size are exact halvings; a shift of a 32-bit height by 32 or more (undefined in C++) cannot arise with D3D12's mip counts. The 64-bit to 32-bit truncation of the destination width is modelled. The destination size is scanned after it is clamped to at least 1 (ScannedValue, Findings row 1). Where the code's scan is 0, mipCount is left uninitialised and the code guarantees nothing, so the mip counts and the once-each coverage of MipsPassAt, PassMipCount, MipsScheduleCoversEachMipOnce, GenerateMipsWritesEachMipOnce and GenerateMips hold for the corrected scan, not for those inputs as written.
- MipSchedule.DivideByMultiple: Math.h is not part of this model; the helper is modelled as the ceiling of value / alignment, without any overflow of its own arithmetic.
- AfrSample.FramePacing.Signal: the 64-bit fence counter is unbounded here; it never wraps in practice.
- DeviceModel.Device.GetMultisampleQualityLevels: requires numSamples below 2^31. That excludes the 32-bit overflow that would wrap the doubled sample count to 0.
- CommandListModel.CommandList.GenerateMips: requires MipLevels of at least 1. A MipLevels of 0 (all mips) is resolved by D3D12 before the description reaches this code.
- CommandListModel.CommandList.GenerateMips: the error the code throws for unsupported textures is the MipsNotSupported outcome.
- ResourceModel.Resource.Copy: requires a clear value, because the source dereferences it unconditionally.
- ResourceModel.Resource.SetD3D12Resource: requires a device whenever the new resource is live, and a clear value argument whenever the resource already holds one, because the source dereferences both (Resource.cpp 119 and 161). ResourceModel.Resource.Wrap requires a device for a live resource for the same reason.
- ResourceModel.Resource.Move: the moved-from name is empty. That is what MSVC's std::wstring move does; the C++ standard only promises a valid but unspecified string.
- CommandListModel.CommandList.CopyBuffer: the closing CreateViews call (CommandList.cpp 223) is not modelled, because the views belong to the Buffer subclasses, whose sources are not part of this model. The method requires that the buffer holds no clear value. SetD3D12Resource is called without one, and it would dereference a null pointer if the buffer already held one; Buffer's constructors never give one.
- CommandListModel.Queued: every transition handed to the tracker counts as queued. The tracker puts a subresource's first transition in a list on its pending list instead, and the patch-up list resolves it before this list runs. The model is therefore conservative: Ordered demands a flush after a first-use transition too.
- CommandListModel.ClearAsWrittenUnordered: it holds of that conservative queue. In the program, a clear overtakes a queued barrier only when the list already moved the texture to another state.

## Findings

| source | as written | input that shows it | evidently intended | confidence | as-written member | corrected member |
|---|---|---|---|---|---|---|
| DX12Lib/src/CommandList.cpp:562-573 | the bit scan uses the destination size before it is clamped to at least 1, so it can scan 0, and _BitScanForward then leaves mipCount undefined | a 2x1 texture with 2 mips: the destination is 1x0 and the scanned value is 0 | clamp the destination size first, so a pass always writes at least one mip | not executed | MipSchedule.WideTextureScansZero | MipSchedule.ScannedValue |
| DX12Lib/src/CommandList.cpp:756-770 | ClearTexture and ClearDepthStencilTexture queue the transition but record the clear without flushing | a texture already transitioned to another state earlier in the same list (for example bound first through SetShaderResourceView): the clear overtakes its queued transition barrier | flush the barrier before the clear, as every other GPU command does | not executed | CommandListModel.ClearAsWrittenUnordered | CommandListModel.CommandList.ClearTexture |
| Samples/05-afr/src/main.cpp:643-648 | the clear colour row is the node index, but the table has two rows | a machine with three GPU nodes: node 2 reads row 2 | alternate between the two colours | not executed | AfrSample.ClearColorRowOutOfTable | AfrSample.ClearColorRow |

## Notes on the sample

- With more than one GPU node the sample buffers a single frame (main.cpp:937, numFrames = 1), so the frame index stays 0 and only the node index alternates; with one node it alternates between two frames.
- The AFR sample never calls ReleaseStaleDescriptors: Present (main.cpp:597-622) only advances the frame index when the node index returns to 0.
