/**
 * What the two compute utilities of CommandList record, read back from the
 * event log: which mips of which resource are bound as unordered-access
 * views, in what order, and how many dispatches are issued.
 */
module ComputeUtilities {
  import opened D3D
  import opened MipSchedule
  import opened CommandListModel

  /** The mip an event binds as a UAV of `res` (2D mip views, or cube-array mip views when `cube`). */
  function MipBound(e: Event, res: Ptr, cube: bool): seq<nat>
  {
    if e.DescriptorsStaged? && e.descriptor.Uav? && e.descriptor.res == res &&
       (if cube then e.descriptor.desc.CubeArrayUav? else e.descriptor.desc.Tex2DUav?)
    then [e.descriptor.desc.mipSlice]
    else []
  }

  /** The mips of `res` a recording binds as UAVs, in recording order. */
  function UavMips(ev: seq<Event>, res: Ptr, cube: bool): seq<nat>
    decreases |ev|
  {
    if ev == [] then [] else MipBound(ev[0], res, cube) + UavMips(ev[1..], res, cube)
  }

  predicate IsDispatch(e: Event)
  {
    e.Native? && e.call.DispatchCall?
  }

  /** The number of dispatches a recording issues. */
  function Dispatches(ev: seq<Event>): nat
    decreases |ev|
  {
    if ev == [] then 0 else (if IsDispatch(ev[0]) then 1 else 0) + Dispatches(ev[1..])
  }

  /** Events that stage no descriptor and dispatch nothing. */
  ghost predicate Quiet(ev: seq<Event>)
  {
    forall i :: 0 <= i < |ev| ==> !ev[i].DescriptorsStaged? && !IsDispatch(ev[i])
  }

  // ---- The projections, part by part --------------------------------------------------

  lemma {:induction false} UavMipsConcat(a: seq<Event>, b: seq<Event>, res: Ptr, cube: bool)
    ensures UavMips(a + b, res, cube) == UavMips(a, res, cube) + UavMips(b, res, cube)
    decreases |a|
  {
    if a == [] {
      assert a + b == b;
    } else {
      assert (a + b)[0] == a[0] && (a + b)[1..] == a[1..] + b;
      UavMipsConcat(a[1..], b, res, cube);
    }
  }

  lemma {:induction false} DispatchesConcat(a: seq<Event>, b: seq<Event>)
    ensures Dispatches(a + b) == Dispatches(a) + Dispatches(b)
    decreases |a|
  {
    if a == [] {
      assert a + b == b;
    } else {
      assert (a + b)[0] == a[0] && (a + b)[1..] == a[1..] + b;
      DispatchesConcat(a[1..], b);
    }
  }

  lemma OneEvent(e: Event, res: Ptr, cube: bool)
    ensures UavMips([e], res, cube) == MipBound(e, res, cube)
    ensures Dispatches([e]) == if IsDispatch(e) then 1 else 0
  {
    assert [e][1..] == [];
  }

  /** A pass that binds `x` and dispatches once, followed by the rest of a schedule. */
  lemma OnePassFirst(first: seq<Event>, rest: seq<Event>, x: seq<nat>, res: Ptr, cube: bool)
    requires UavMips(first, res, cube) == x && Dispatches(first) == 1
    ensures UavMips(first + rest, res, cube) == x + UavMips(rest, res, cube)
    ensures Dispatches(first + rest) == 1 + Dispatches(rest)
  {
    UavMipsConcat(first, rest, res, cube);
    DispatchesConcat(first, rest);
  }

  /** A quiet recording binds no UAV and dispatches nothing. */
  lemma {:induction false} QuietVanishes(ev: seq<Event>, res: Ptr, cube: bool)
    requires Quiet(ev)
    ensures UavMips(ev, res, cube) == [] && Dispatches(ev) == 0
    decreases |ev|
  {
    if ev != [] {
      QuietVanishes(ev[1..], res, cube);
    }
  }

  /**
   * A compute pass made of five parts binds what its third part (the UAV
   * table) binds and dispatches what its fifth part dispatches, when the
   * other parts bind nothing and only the fifth dispatches.
   */
  lemma PassProjection(a: seq<Event>, b: seq<Event>, c: seq<Event>, d: seq<Event>, e: seq<Event>, res: Ptr, cube: bool)
    requires UavMips(a, res, cube) == [] && UavMips(b, res, cube) == [] && UavMips(d, res, cube) == [] && UavMips(e, res, cube) == []
    requires Dispatches(a) == 0 && Dispatches(b) == 0 && Dispatches(c) == 0 && Dispatches(d) == 0
    ensures UavMips(a + b + c + d + e, res, cube) == UavMips(c, res, cube)
    ensures Dispatches(a + b + c + d + e) == Dispatches(e)
  {
    UavMipsConcat(a, b, res, cube);
    UavMipsConcat(a + b, c, res, cube);
    UavMipsConcat(a + b + c, d, res, cube);
    UavMipsConcat(a + b + c + d, e, res, cube);
    DispatchesConcat(a, b);
    DispatchesConcat(a + b, c);
    DispatchesConcat(a + b + c, d);
    DispatchesConcat(a + b + c + d, e);
    assert [] + UavMips(c, res, cube) + [] + [] == UavMips(c, res, cube);
  }

  /** A recording of five parts of which only the fourth binds or dispatches anything. */
  lemma FrameProjection(a: seq<Event>, b: seq<Event>, c: seq<Event>, d: seq<Event>, e: seq<Event>, res: Ptr, cube: bool)
    requires Quiet(a) && Quiet(b) && Quiet(c) && Quiet(e)
    ensures UavMips(a + b + c + d + e, res, cube) == UavMips(d, res, cube)
    ensures Dispatches(a + b + c + d + e) == Dispatches(d)
  {
    QuietVanishes(a, res, cube);
    QuietVanishes(b, res, cube);
    QuietVanishes(c, res, cube);
    QuietVanishes(e, res, cube);
    UavMipsConcat(a, b, res, cube);
    UavMipsConcat(a + b, c, res, cube);
    UavMipsConcat(a + b + c, d, res, cube);
    UavMipsConcat(a + b + c + d, e, res, cube);
    DispatchesConcat(a, b);
    DispatchesConcat(a + b, c);
    DispatchesConcat(a + b + c, d);
    DispatchesConcat(a + b + c + d, e);
    assert [] + [] + [] + UavMips(d, res, cube) + [] == UavMips(d, res, cube);
  }

  /** The unfoldings of Range and of the schedules' target lists, one step at a time. */
  lemma RangeCons(lo: nat, hi: nat)
    requires lo < hi
    ensures Range(lo, hi) == [lo] + Range(lo + 1, hi)
  {
  }

  lemma AllTargetsCons(ps: seq<MipsPass>)
    requires ps != []
    ensures AllTargets(ps) == PassTargets(ps[0]) + AllTargets(ps[1..])
  {
  }

  lemma CubeTargetsCons(ps: seq<CubePass>)
    requires ps != []
    ensures CubeTargets(ps) == Range(ps[0].firstMip, ps[0].firstMip + ps[0].numMips) + CubeTargets(ps[1..])
  {
  }

  // ---- The building blocks ------------------------------------------------------------

  lemma {:induction false} SubresourceTransitionsQuiet(res: Ptr, stateAfter: ResourceState, first: u32, from: nat, count: nat)
    ensures Quiet(SubresourceTransitions(res, stateAfter, first, from, count))
    decreases count - from
  {
    if from < count {
      SubresourceTransitionsQuiet(res, stateAfter, first, from + 1, count);
    }
  }

  lemma {:induction false} CommitsQuiet(forDraw: bool, first: nat)
    requires first <= NUM_HEAP_TYPES
    ensures Quiet(Commits(forDraw, first))
    decreases NUM_HEAP_TYPES - first
  {
    if first < NUM_HEAP_TYPES {
      CommitsQuiet(forDraw, first + 1);
    }
  }

  lemma {:induction false} ParsesQuiet(rootSignature: Ptr, first: nat)
    requires first <= NUM_HEAP_TYPES
    ensures Quiet(Parses(rootSignature, first))
    decreases NUM_HEAP_TYPES - first
  {
    if first < NUM_HEAP_TYPES {
      ParsesQuiet(rootSignature, first + 1);
    }
  }

  /** Binding a pipeline stages no descriptor and dispatches nothing. */
  lemma PipelineQuiet(pipeline: Pipeline, cachedRootSignature: Ptr)
    ensures Quiet(PipelineEvents(pipeline, cachedRootSignature))
  {
    ParsesQuiet(pipeline.rootSignature, 0);
  }

  lemma CopyQuiet(dst: Ptr, src: Ptr)
    ensures Quiet(CopyEvents(dst, src))
  {
  }

  lemma QuietConcat(a: seq<Event>, b: seq<Event>)
    requires Quiet(a) && Quiet(b)
    ensures Quiet(a + b)
  {
    forall i | 0 <= i < |a + b|
      ensures !(a + b)[i].DescriptorsStaged? && !IsDispatch((a + b)[i])
    {
      if i >= |a| {
        assert (a + b)[i] == b[i - |a|];
      }
    }
  }

  lemma AliasQuiet(texture: Ptr, heap: Ptr, alias: Ptr, uav: Ptr, flags: ResourceFlags)
    ensures Quiet(AliasPrologue(texture, heap, alias, uav, flags)) && Quiet(AliasEpilogue(texture, alias, uav))
  {
    var h := [HeapCreated(heap), Tracked(heap)];
    var pa := PlacedEvents(alias, heap, AliasFlags(flags));
    var pu := PlacedEvents(uav, heap, AliasFlags(flags));
    var b0 := [TrackerBarrier(AliasingBarrier(Null, alias))];
    var c := CopyEvents(alias, texture);
    var b1 := [TrackerBarrier(AliasingBarrier(alias, uav))];
    Steps6(h, pa, pu, b0, c, b1);
    CopyQuiet(alias, texture);
    QuietConcat(h, pa);
    QuietConcat(h + pa, pu);
    QuietConcat(h + pa + pu, b0);
    QuietConcat(h + pa + pu + b0, c);
    QuietConcat(h + pa + pu + b0 + c, b1);
    CopyQuiet(texture, alias);
    QuietConcat([TrackerBarrier(AliasingBarrier(uav, alias))], CopyEvents(texture, alias));
  }

  /** A dispatch: exactly one native dispatch and no descriptor staged. */
  lemma DispatchEventsCount(call: NativeCall, res: Ptr, cube: bool)
    requires call.DispatchCall?
    ensures UavMips(DrawEvents(call), res, cube) == [] && Dispatches(DrawEvents(call)) == 1
  {
    var commits := Commits(false, 0);
    CommitsQuiet(false, 0);
    QuietVanishes([TrackerFlush] + commits, res, cube);
    assert DrawEvents(call) == ([TrackerFlush] + commits) + [Native(call)];
    UavMipsConcat([TrackerFlush] + commits, [Native(call)], res, cube);
    DispatchesConcat([TrackerFlush] + commits, [Native(call)]);
  }

  /** A view setter binds exactly its own descriptor and dispatches nothing. */
  lemma ViewEventsBind(rootParameter: nat, offset: nat, r: Ptr, stateAfter: ResourceState, first: u32, count: u32,
                       d: Descriptor, res: Ptr, cube: bool)
    ensures UavMips(ViewEvents(rootParameter, offset, r, stateAfter, first, count, d), res, cube)
      == MipBound(DescriptorsStaged(HEAP_CBV_SRV_UAV, rootParameter, offset, 1, d), res, cube)
    ensures Dispatches(ViewEvents(rootParameter, offset, r, stateAfter, first, count, d)) == 0
  {
    var t := ViewTransitions(r, stateAfter, first, count);
    var tail := [DescriptorsStaged(HEAP_CBV_SRV_UAV, rootParameter, offset, 1, d), Tracked(r)];
    SubresourceTransitionsQuiet(r, stateAfter, first, 0, count);
    QuietVanishes(t, res, cube);
    UavMipsConcat(t, tail, res, cube);
    DispatchesConcat(t, tail);
    assert tail[1..] == [Tracked(r)];
    assert UavMips([Tracked(r)], res, cube) == [] && Dispatches([Tracked(r)]) == 0;
  }

  /** Padding stages default UAVs only: no mip of any resource is bound. */
  lemma PaddingBindsNothing(rootParameter: nat, used: nat, slots: nat, defaultUav: Ptr, res: Ptr, cube: bool)
    ensures UavMips(PaddingEvents(rootParameter, used, slots, defaultUav), res, cube) == []
    ensures Dispatches(PaddingEvents(rootParameter, used, slots, defaultUav)) == 0
  {
  }

  // ---- GenerateMips -------------------------------------------------------------------

  /** Slot `mip` of the OutMip table binds destination mip srcMip+mip+1 of `tex`, and nothing of any other resource. */
  lemma OutMipSlotBinds(tex: Ptr, srcMip: nat, mip: nat, res: Ptr)
    ensures UavMips(ViewEvents(MIPS_OUT_PARAM, mip, tex, STATE_UNORDERED_ACCESS, (srcMip + mip + 1) % U32_MODULUS, 1, Uav(tex, Tex2DUav(srcMip + mip + 1))), res, false)
      == if res == tex then [srcMip + mip + 1] else []
    ensures Dispatches(ViewEvents(MIPS_OUT_PARAM, mip, tex, STATE_UNORDERED_ACCESS, (srcMip + mip + 1) % U32_MODULUS, 1, Uav(tex, Tex2DUav(srcMip + mip + 1)))) == 0
  {
    ViewEventsBind(MIPS_OUT_PARAM, mip, tex, STATE_UNORDERED_ACCESS, (srcMip + mip + 1) % U32_MODULUS, 1, Uav(tex, Tex2DUav(srcMip + mip + 1)), res, false);
  }

  /** One slot of the OutMip table, followed by the rest of it. */
  lemma OutMipStep(tex: Ptr, srcMip: nat, mip: nat, count: nat, res: Ptr)
    requires mip < count
    ensures UavMips(OutMipEvents(tex, srcMip, mip, count), res, false)
      == (if res == tex then [srcMip + mip + 1] else []) + UavMips(OutMipEvents(tex, srcMip, mip + 1, count), res, false)
    ensures Dispatches(OutMipEvents(tex, srcMip, mip, count)) == Dispatches(OutMipEvents(tex, srcMip, mip + 1, count))
  {
    var v := ViewEvents(MIPS_OUT_PARAM, mip, tex, STATE_UNORDERED_ACCESS, (srcMip + mip + 1) % U32_MODULUS, 1, Uav(tex, Tex2DUav(srcMip + mip + 1)));
    var rest := OutMipEvents(tex, srcMip, mip + 1, count);
    OutMipSlotBinds(tex, srcMip, mip, res);
    UavMipsConcat(v, rest, res, false);
    DispatchesConcat(v, rest);
  }

  lemma {:induction false} OutMipsOwn(tex: Ptr, srcMip: nat, mip: nat, count: nat, lo: nat)
    requires mip <= count && lo == srcMip + 1 + mip
    ensures UavMips(OutMipEvents(tex, srcMip, mip, count), tex, false) == Range(lo, srcMip + 1 + count)
    decreases count - mip
  {
    if mip < count {
      OutMipStep(tex, srcMip, mip, count, tex);
      OutMipsOwn(tex, srcMip, mip + 1, count, lo + 1);
      RangeCons(lo, srcMip + 1 + count);
    }
  }

  lemma {:induction false} OutMipsOther(tex: Ptr, srcMip: nat, mip: nat, count: nat, res: Ptr)
    requires mip <= count && res != tex
    ensures UavMips(OutMipEvents(tex, srcMip, mip, count), res, false) == []
    decreases count - mip
  {
    if mip < count {
      OutMipStep(tex, srcMip, mip, count, res);
      OutMipsOther(tex, srcMip, mip + 1, count, res);
    }
  }

  lemma {:induction false} OutMipsQuiet(tex: Ptr, srcMip: nat, mip: nat, count: nat)
    requires mip <= count
    ensures Dispatches(OutMipEvents(tex, srcMip, mip, count)) == 0
    decreases count - mip
  {
    if mip < count {
      OutMipStep(tex, srcMip, mip, count, tex);
      OutMipsQuiet(tex, srcMip, mip + 1, count);
    }
  }

  /** The OutMip table, from slot `mip` on, binds destination mips lo = srcMip+1+mip .. srcMip+count of `tex`, in order. */
  lemma OutMipsBind(tex: Ptr, srcMip: nat, mip: nat, count: nat, lo: nat, res: Ptr)
    requires mip <= count && lo == srcMip + 1 + mip
    ensures UavMips(OutMipEvents(tex, srcMip, mip, count), res, false) == if res == tex then Range(lo, srcMip + 1 + count) else []
    ensures Dispatches(OutMipEvents(tex, srcMip, mip, count)) == 0
  {
    if res == tex {
      OutMipsOwn(tex, srcMip, mip, count, lo);
    } else {
      OutMipsOther(tex, srcMip, mip, count, res);
    }
    OutMipsQuiet(tex, srcMip, mip, count);
  }

  lemma OutMipTableBinds(p: MipsPass, tex: Ptr, res: Ptr)
    ensures UavMips(OutMipEvents(tex, p.srcMip, 0, p.mipCount), res, false) == if res == tex then PassTargets(p) else []
    ensures Dispatches(OutMipEvents(tex, p.srcMip, 0, p.mipCount)) == 0
  {
    OutMipsBind(tex, p.srcMip, 0, p.mipCount, p.srcMip + 1, res);
  }

  /** A GenerateMips pass in five parts: constants, source SRV, OutMip table, padding, dispatch and UAV barrier. */
  lemma MipsPassSplit(p: MipsPass, tex: Ptr, srgb: bool, levels: nat, defaultUav: Ptr)
    ensures MipsPassEvents(p, tex, srgb, levels, defaultUav) ==
      [Native(SetComputeRoot32BitConstantsCall(MIPS_CB_PARAM, MipsConstants(p.srcMip, p.mipCount, p.srcDimension, srgb)))]
      + ViewEvents(MIPS_SRC_PARAM, 0, tex, STATE_NON_PIXEL_SHADER_RESOURCE, p.srcMip % U32_MODULUS, 1, Srv(tex, Tex2DSrv(srgb, levels)))
      + OutMipEvents(tex, p.srcMip, 0, p.mipCount)
      + PaddingEvents(MIPS_OUT_PARAM, p.mipCount, MIPS_PER_PASS, defaultUav)
      + (DrawEvents(DispatchCall(p.groupsX, p.groupsY, 1)) + [TrackerBarrier(UavBarrier(tex))])
  {
    var k := [Native(SetComputeRoot32BitConstantsCall(MIPS_CB_PARAM, MipsConstants(p.srcMip, p.mipCount, p.srcDimension, srgb)))];
    var v := ViewEvents(MIPS_SRC_PARAM, 0, tex, STATE_NON_PIXEL_SHADER_RESOURCE, p.srcMip % U32_MODULUS, 1, Srv(tex, Tex2DSrv(srgb, levels)));
    var o := OutMipEvents(tex, p.srcMip, 0, p.mipCount);
    var pad := PaddingEvents(MIPS_OUT_PARAM, p.mipCount, MIPS_PER_PASS, defaultUav);
    var d := DrawEvents(DispatchCall(p.groupsX, p.groupsY, 1));
    var b := [TrackerBarrier(UavBarrier(tex))];
    Steps6(k, v, o, pad, d, b);
    Assoc(k + v + o + pad, d, b);
  }

  /** The constants and the source SRV of a pass bind no UAV and dispatch nothing. */
  lemma MipsPassHead(p: MipsPass, tex: Ptr, srgb: bool, levels: nat, res: Ptr)
    ensures UavMips([Native(SetComputeRoot32BitConstantsCall(MIPS_CB_PARAM, MipsConstants(p.srcMip, p.mipCount, p.srcDimension, srgb)))], res, false) == []
    ensures Dispatches([Native(SetComputeRoot32BitConstantsCall(MIPS_CB_PARAM, MipsConstants(p.srcMip, p.mipCount, p.srcDimension, srgb)))]) == 0
    ensures UavMips(ViewEvents(MIPS_SRC_PARAM, 0, tex, STATE_NON_PIXEL_SHADER_RESOURCE, p.srcMip % U32_MODULUS, 1, Srv(tex, Tex2DSrv(srgb, levels))), res, false) == []
    ensures Dispatches(ViewEvents(MIPS_SRC_PARAM, 0, tex, STATE_NON_PIXEL_SHADER_RESOURCE, p.srcMip % U32_MODULUS, 1, Srv(tex, Tex2DSrv(srgb, levels)))) == 0
  {
    OneEvent(Native(SetComputeRoot32BitConstantsCall(MIPS_CB_PARAM, MipsConstants(p.srcMip, p.mipCount, p.srcDimension, srgb))), res, false);
    ViewEventsBind(MIPS_SRC_PARAM, 0, tex, STATE_NON_PIXEL_SHADER_RESOURCE, p.srcMip % U32_MODULUS, 1, Srv(tex, Tex2DSrv(srgb, levels)), res, false);
  }

  /** The padding binds no UAV; the dispatch and the UAV barrier dispatch once and bind no UAV. */
  lemma MipsPassTail(p: MipsPass, tex: Ptr, defaultUav: Ptr, res: Ptr)
    ensures UavMips(PaddingEvents(MIPS_OUT_PARAM, p.mipCount, MIPS_PER_PASS, defaultUav), res, false) == []
    ensures Dispatches(PaddingEvents(MIPS_OUT_PARAM, p.mipCount, MIPS_PER_PASS, defaultUav)) == 0
    ensures UavMips(DrawEvents(DispatchCall(p.groupsX, p.groupsY, 1)) + [TrackerBarrier(UavBarrier(tex))], res, false) == []
    ensures Dispatches(DrawEvents(DispatchCall(p.groupsX, p.groupsY, 1)) + [TrackerBarrier(UavBarrier(tex))]) == 1
  {
    var d := DrawEvents(DispatchCall(p.groupsX, p.groupsY, 1));
    var b := [TrackerBarrier(UavBarrier(tex))];
    PaddingBindsNothing(MIPS_OUT_PARAM, p.mipCount, MIPS_PER_PASS, defaultUav, res, false);
    DispatchEventsCount(DispatchCall(p.groupsX, p.groupsY, 1), res, false);
    OneEvent(TrackerBarrier(UavBarrier(tex)), res, false);
    UavMipsConcat(d, b, res, false);
    DispatchesConcat(d, b);
  }

  /** One pass binds exactly the mips it writes, as UAVs of `tex` and of no other resource, and dispatches once. */
  lemma MipsPassBinds(p: MipsPass, tex: Ptr, srgb: bool, levels: nat, defaultUav: Ptr, res: Ptr)
    ensures UavMips(MipsPassEvents(p, tex, srgb, levels, defaultUav), res, false) == if res == tex then PassTargets(p) else []
    ensures Dispatches(MipsPassEvents(p, tex, srgb, levels, defaultUav)) == 1
  {
    MipsPassSplit(p, tex, srgb, levels, defaultUav);
    MipsPassHead(p, tex, srgb, levels, res);
    OutMipTableBinds(p, tex, res);
    MipsPassTail(p, tex, defaultUav, res);
    PassProjection(
      [Native(SetComputeRoot32BitConstantsCall(MIPS_CB_PARAM, MipsConstants(p.srcMip, p.mipCount, p.srcDimension, srgb)))],
      ViewEvents(MIPS_SRC_PARAM, 0, tex, STATE_NON_PIXEL_SHADER_RESOURCE, p.srcMip % U32_MODULUS, 1, Srv(tex, Tex2DSrv(srgb, levels))),
      OutMipEvents(tex, p.srcMip, 0, p.mipCount),
      PaddingEvents(MIPS_OUT_PARAM, p.mipCount, MIPS_PER_PASS, defaultUav),
      DrawEvents(DispatchCall(p.groupsX, p.groupsY, 1)) + [TrackerBarrier(UavBarrier(tex))], res, false);
  }

  /** The first pass of a schedule, followed by the rest of it. */
  lemma MipsPassesStep(ps: seq<MipsPass>, tex: Ptr, srgb: bool, levels: nat, defaultUav: Ptr, res: Ptr)
    requires ps != []
    ensures UavMips(MipsPassesEvents(ps, tex, srgb, levels, defaultUav), res, false)
      == (if res == tex then PassTargets(ps[0]) else []) + UavMips(MipsPassesEvents(ps[1..], tex, srgb, levels, defaultUav), res, false)
    ensures Dispatches(MipsPassesEvents(ps, tex, srgb, levels, defaultUav)) == 1 + Dispatches(MipsPassesEvents(ps[1..], tex, srgb, levels, defaultUav))
  {
    var first := MipsPassEvents(ps[0], tex, srgb, levels, defaultUav);
    var rest := MipsPassesEvents(ps[1..], tex, srgb, levels, defaultUav);
    MipsPassBinds(ps[0], tex, srgb, levels, defaultUav, res);
    OnePassFirst(first, rest, if res == tex then PassTargets(ps[0]) else [], res, false);
  }

  lemma {:induction false} MipsPassesOwn(ps: seq<MipsPass>, tex: Ptr, srgb: bool, levels: nat, defaultUav: Ptr)
    ensures UavMips(MipsPassesEvents(ps, tex, srgb, levels, defaultUav), tex, false) == AllTargets(ps)
    decreases |ps|
  {
    if ps != [] {
      MipsPassesStep(ps, tex, srgb, levels, defaultUav, tex);
      MipsPassesOwn(ps[1..], tex, srgb, levels, defaultUav);
      AllTargetsCons(ps);
    }
  }

  lemma {:induction false} MipsPassesOther(ps: seq<MipsPass>, tex: Ptr, srgb: bool, levels: nat, defaultUav: Ptr, res: Ptr)
    requires res != tex
    ensures UavMips(MipsPassesEvents(ps, tex, srgb, levels, defaultUav), res, false) == []
    decreases |ps|
  {
    if ps != [] {
      MipsPassesStep(ps, tex, srgb, levels, defaultUav, res);
      MipsPassesOther(ps[1..], tex, srgb, levels, defaultUav, res);
    }
  }

  lemma {:induction false} MipsPassesDispatch(ps: seq<MipsPass>, tex: Ptr, srgb: bool, levels: nat, defaultUav: Ptr)
    ensures Dispatches(MipsPassesEvents(ps, tex, srgb, levels, defaultUav)) == |ps|
    decreases |ps|
  {
    if ps != [] {
      MipsPassesStep(ps, tex, srgb, levels, defaultUav, tex);
      MipsPassesDispatch(ps[1..], tex, srgb, levels, defaultUav);
    }
  }

  /** A schedule of passes binds the mips its passes write, of `tex` and of no other resource, and dispatches once per pass. */
  lemma MipsPassesBind(ps: seq<MipsPass>, tex: Ptr, srgb: bool, levels: nat, defaultUav: Ptr, res: Ptr)
    ensures UavMips(MipsPassesEvents(ps, tex, srgb, levels, defaultUav), res, false) == if res == tex then AllTargets(ps) else []
    ensures Dispatches(MipsPassesEvents(ps, tex, srgb, levels, defaultUav)) == |ps|
  {
    if res == tex {
      MipsPassesOwn(ps, tex, srgb, levels, defaultUav);
    } else {
      MipsPassesOther(ps, tex, srgb, levels, defaultUav, res);
    }
    MipsPassesDispatch(ps, tex, srgb, levels, defaultUav);
  }

  /**
   * GenerateMips_UAV binds every mip 1 .. levels-1 of the texture as a UAV
   * exactly once, in increasing order, binds no mip of any other resource,
   * and issues one dispatch per pass of the schedule.
   */
  lemma GenerateMipsWritesEachMipOnce(tex: Ptr, width: u64, height: u32, levels: nat, srgb: bool,
                                      pipeline: Pipeline, cachedRootSignature: Ptr, res: Ptr)
    ensures UavMips(MipsUavEvents(tex, width, height, levels, srgb, pipeline, cachedRootSignature), res, false)
      == if res == tex then Range(1, levels) else []
    ensures Dispatches(MipsUavEvents(tex, width, height, levels, srgb, pipeline, cachedRootSignature))
      == |MipsSchedule(width, height, levels, 0)|
  {
    var bind := PipelineEvents(pipeline, cachedRootSignature);
    var passes := MipsPassesEvents(MipsSchedule(width, height, levels, 0), tex, srgb, levels, pipeline.defaultUav);
    PipelineQuiet(pipeline, cachedRootSignature);
    QuietVanishes(bind, res, false);
    MipsPassesBind(MipsSchedule(width, height, levels, 0), tex, srgb, levels, pipeline.defaultUav, res);
    MipsScheduleCoversEachMipOnce(width, height, levels, 0);
    UavMipsConcat(bind, passes, res, false);
    DispatchesConcat(bind, passes);
  }

  /**
   * Through an alias, the passes write every mip 1 .. levels-1 of the
   * UAV-compatible alias `uav` once, in order, and no mip of any other
   * resource (the texture included): the prologue and epilogue only copy.
   */
  lemma GenerateMipsViaAliasWritesAlias(texture: Ptr, heap: Ptr, alias: Ptr, uav: Ptr, flags: ResourceFlags,
                                        width: u64, height: u32, levels: nat, srgb: bool,
                                        pipeline: Pipeline, cachedRootSignature: Ptr, res: Ptr)
    ensures var ev := AliasPrologue(texture, heap, alias, uav, flags)
                      + MipsUavEvents(uav, width, height, levels, srgb, pipeline, cachedRootSignature)
                      + AliasEpilogue(texture, alias, uav);
      UavMips(ev, res, false) == (if res == uav then Range(1, levels) else []) &&
      Dispatches(ev) == |MipsSchedule(width, height, levels, 0)|
  {
    var pro := AliasPrologue(texture, heap, alias, uav, flags);
    var mid := MipsUavEvents(uav, width, height, levels, srgb, pipeline, cachedRootSignature);
    var epi := AliasEpilogue(texture, alias, uav);
    AliasQuiet(texture, heap, alias, uav, flags);
    QuietVanishes(pro, res, false);
    QuietVanishes(epi, res, false);
    GenerateMipsWritesEachMipOnce(uav, width, height, levels, srgb, pipeline, cachedRootSignature, res);
    UavMipsConcat(pro, mid, res, false);
    UavMipsConcat(pro + mid, epi, res, false);
    DispatchesConcat(pro, mid);
    DispatchesConcat(pro + mid, epi);
  }

  // ---- PanoToCubemap ------------------------------------------------------------------

  /** Slot `mip` of a cube pass's UAV table binds cubemap mip firstMip+mip of `target`, and nothing of any other resource. */
  lemma CubeSlotBinds(target: Ptr, firstMip: nat, mip: nat, res: Ptr)
    ensures UavMips(ViewEvents(CUBE_DST_PARAM, mip, target, STATE_UNORDERED_ACCESS, 0, 0, Uav(target, CubeArrayUav(firstMip + mip))), res, true)
      == if res == target then [firstMip + mip] else []
    ensures Dispatches(ViewEvents(CUBE_DST_PARAM, mip, target, STATE_UNORDERED_ACCESS, 0, 0, Uav(target, CubeArrayUav(firstMip + mip)))) == 0
  {
    ViewEventsBind(CUBE_DST_PARAM, mip, target, STATE_UNORDERED_ACCESS, 0, 0, Uav(target, CubeArrayUav(firstMip + mip)), res, true);
  }

  /** One slot of a cube pass's UAV table, followed by the rest of it. */
  lemma CubeUavStep(target: Ptr, firstMip: nat, mip: nat, count: nat, res: Ptr)
    requires mip < count
    ensures UavMips(CubeUavEvents(target, firstMip, mip, count), res, true)
      == (if res == target then [firstMip + mip] else []) + UavMips(CubeUavEvents(target, firstMip, mip + 1, count), res, true)
    ensures Dispatches(CubeUavEvents(target, firstMip, mip, count)) == Dispatches(CubeUavEvents(target, firstMip, mip + 1, count))
  {
    var v := ViewEvents(CUBE_DST_PARAM, mip, target, STATE_UNORDERED_ACCESS, 0, 0, Uav(target, CubeArrayUav(firstMip + mip)));
    var rest := CubeUavEvents(target, firstMip, mip + 1, count);
    CubeSlotBinds(target, firstMip, mip, res);
    UavMipsConcat(v, rest, res, true);
    DispatchesConcat(v, rest);
  }

  lemma {:induction false} CubeUavsOwn(target: Ptr, firstMip: nat, mip: nat, count: nat, lo: nat)
    requires mip <= count && lo == firstMip + mip
    ensures UavMips(CubeUavEvents(target, firstMip, mip, count), target, true) == Range(lo, firstMip + count)
    decreases count - mip
  {
    if mip < count {
      CubeUavStep(target, firstMip, mip, count, target);
      CubeUavsOwn(target, firstMip, mip + 1, count, lo + 1);
      RangeCons(lo, firstMip + count);
    }
  }

  lemma {:induction false} CubeUavsOther(target: Ptr, firstMip: nat, mip: nat, count: nat, res: Ptr)
    requires mip <= count && res != target
    ensures UavMips(CubeUavEvents(target, firstMip, mip, count), res, true) == []
    decreases count - mip
  {
    if mip < count {
      CubeUavStep(target, firstMip, mip, count, res);
      CubeUavsOther(target, firstMip, mip + 1, count, res);
    }
  }

  lemma {:induction false} CubeUavsQuiet(target: Ptr, firstMip: nat, mip: nat, count: nat)
    requires mip <= count
    ensures Dispatches(CubeUavEvents(target, firstMip, mip, count)) == 0
    decreases count - mip
  {
    if mip < count {
      CubeUavStep(target, firstMip, mip, count, target);
      CubeUavsQuiet(target, firstMip, mip + 1, count);
    }
  }

  /** The UAV table of a cube pass, from slot `mip` on, binds cubemap mips lo = firstMip+mip .. firstMip+count-1 of `target`, in order. */
  lemma CubeUavsBind(target: Ptr, firstMip: nat, mip: nat, count: nat, lo: nat, res: Ptr)
    requires mip <= count && lo == firstMip + mip
    ensures UavMips(CubeUavEvents(target, firstMip, mip, count), res, true) == if res == target then Range(lo, firstMip + count) else []
    ensures Dispatches(CubeUavEvents(target, firstMip, mip, count)) == 0
  {
    if res == target {
      CubeUavsOwn(target, firstMip, mip, count, lo);
    } else {
      CubeUavsOther(target, firstMip, mip, count, res);
    }
    CubeUavsQuiet(target, firstMip, mip, count);
  }

  lemma CubeUavTableBinds(p: CubePass, target: Ptr, res: Ptr)
    ensures UavMips(CubeUavEvents(target, p.firstMip, 0, p.numMips), res, true)
      == if res == target then Range(p.firstMip, p.firstMip + p.numMips) else []
    ensures Dispatches(CubeUavEvents(target, p.firstMip, 0, p.numMips)) == 0
  {
    CubeUavsBind(target, p.firstMip, 0, p.numMips, p.firstMip, res);
  }

  /** A PanoToCubemap pass in five parts: constants, panorama SRV, UAV table, padding, dispatch. */
  lemma CubePassSplit(p: CubePass, pano: Ptr, target: Ptr, defaultUav: Ptr)
    ensures CubePassEvents(p, pano, target, defaultUav) ==
      [Native(SetComputeRoot32BitConstantsCall(CUBE_CB_PARAM, CubeConstants(p.firstMip, p.numMips, p.cubemapSize)))]
      + ViewEvents(CUBE_SRC_PARAM, 0, pano, STATE_NON_PIXEL_SHADER_RESOURCE, 0, ALL_SUBRESOURCES, Srv(pano, DefaultView))
      + CubeUavEvents(target, p.firstMip, 0, p.numMips)
      + PaddingEvents(CUBE_DST_PARAM, p.numMips, CUBE_MIPS_PER_PASS, defaultUav)
      + DrawEvents(DispatchCall(p.groups, p.groups, 6))
  {
    Steps5([Native(SetComputeRoot32BitConstantsCall(CUBE_CB_PARAM, CubeConstants(p.firstMip, p.numMips, p.cubemapSize)))],
      ViewEvents(CUBE_SRC_PARAM, 0, pano, STATE_NON_PIXEL_SHADER_RESOURCE, 0, ALL_SUBRESOURCES, Srv(pano, DefaultView)),
      CubeUavEvents(target, p.firstMip, 0, p.numMips),
      PaddingEvents(CUBE_DST_PARAM, p.numMips, CUBE_MIPS_PER_PASS, defaultUav),
      DrawEvents(DispatchCall(p.groups, p.groups, 6)));
  }

  /** The constants and the panorama SRV of a cube pass bind no UAV and dispatch nothing. */
  lemma CubePassHead(p: CubePass, pano: Ptr, res: Ptr)
    ensures UavMips([Native(SetComputeRoot32BitConstantsCall(CUBE_CB_PARAM, CubeConstants(p.firstMip, p.numMips, p.cubemapSize)))], res, true) == []
    ensures Dispatches([Native(SetComputeRoot32BitConstantsCall(CUBE_CB_PARAM, CubeConstants(p.firstMip, p.numMips, p.cubemapSize)))]) == 0
    ensures UavMips(ViewEvents(CUBE_SRC_PARAM, 0, pano, STATE_NON_PIXEL_SHADER_RESOURCE, 0, ALL_SUBRESOURCES, Srv(pano, DefaultView)), res, true) == []
    ensures Dispatches(ViewEvents(CUBE_SRC_PARAM, 0, pano, STATE_NON_PIXEL_SHADER_RESOURCE, 0, ALL_SUBRESOURCES, Srv(pano, DefaultView))) == 0
  {
    OneEvent(Native(SetComputeRoot32BitConstantsCall(CUBE_CB_PARAM, CubeConstants(p.firstMip, p.numMips, p.cubemapSize))), res, true);
    ViewEventsBind(CUBE_SRC_PARAM, 0, pano, STATE_NON_PIXEL_SHADER_RESOURCE, 0, ALL_SUBRESOURCES, Srv(pano, DefaultView), res, true);
  }

  /** The padding of a cube pass binds no UAV; its dispatch dispatches once. */
  lemma CubePassTail(p: CubePass, defaultUav: Ptr, res: Ptr)
    ensures UavMips(PaddingEvents(CUBE_DST_PARAM, p.numMips, CUBE_MIPS_PER_PASS, defaultUav), res, true) == []
    ensures Dispatches(PaddingEvents(CUBE_DST_PARAM, p.numMips, CUBE_MIPS_PER_PASS, defaultUav)) == 0
    ensures UavMips(DrawEvents(DispatchCall(p.groups, p.groups, 6)), res, true) == []
    ensures Dispatches(DrawEvents(DispatchCall(p.groups, p.groups, 6))) == 1
  {
    PaddingBindsNothing(CUBE_DST_PARAM, p.numMips, CUBE_MIPS_PER_PASS, defaultUav, res, true);
    DispatchEventsCount(DispatchCall(p.groups, p.groups, 6), res, true);
  }

  /** One cube pass binds exactly the mips it writes, of `target` and of no other resource, and dispatches once. */
  lemma CubePassBinds(p: CubePass, pano: Ptr, target: Ptr, defaultUav: Ptr, res: Ptr)
    ensures UavMips(CubePassEvents(p, pano, target, defaultUav), res, true)
      == if res == target then Range(p.firstMip, p.firstMip + p.numMips) else []
    ensures Dispatches(CubePassEvents(p, pano, target, defaultUav)) == 1
  {
    CubePassSplit(p, pano, target, defaultUav);
    CubePassHead(p, pano, res);
    CubeUavTableBinds(p, target, res);
    CubePassTail(p, defaultUav, res);
    PassProjection(
      [Native(SetComputeRoot32BitConstantsCall(CUBE_CB_PARAM, CubeConstants(p.firstMip, p.numMips, p.cubemapSize)))],
      ViewEvents(CUBE_SRC_PARAM, 0, pano, STATE_NON_PIXEL_SHADER_RESOURCE, 0, ALL_SUBRESOURCES, Srv(pano, DefaultView)),
      CubeUavEvents(target, p.firstMip, 0, p.numMips),
      PaddingEvents(CUBE_DST_PARAM, p.numMips, CUBE_MIPS_PER_PASS, defaultUav),
      DrawEvents(DispatchCall(p.groups, p.groups, 6)), res, true);
  }

  /** The first pass of a cube schedule, followed by the rest of it. */
  lemma CubePassesStep(ps: seq<CubePass>, pano: Ptr, target: Ptr, defaultUav: Ptr, res: Ptr)
    requires ps != []
    ensures UavMips(CubePassesEvents(ps, pano, target, defaultUav), res, true)
      == (if res == target then Range(ps[0].firstMip, ps[0].firstMip + ps[0].numMips) else []) + UavMips(CubePassesEvents(ps[1..], pano, target, defaultUav), res, true)
    ensures Dispatches(CubePassesEvents(ps, pano, target, defaultUav)) == 1 + Dispatches(CubePassesEvents(ps[1..], pano, target, defaultUav))
  {
    var first := CubePassEvents(ps[0], pano, target, defaultUav);
    var rest := CubePassesEvents(ps[1..], pano, target, defaultUav);
    CubePassBinds(ps[0], pano, target, defaultUav, res);
    OnePassFirst(first, rest, if res == target then Range(ps[0].firstMip, ps[0].firstMip + ps[0].numMips) else [], res, true);
  }

  lemma {:induction false} CubePassesOwn(ps: seq<CubePass>, pano: Ptr, target: Ptr, defaultUav: Ptr)
    ensures UavMips(CubePassesEvents(ps, pano, target, defaultUav), target, true) == CubeTargets(ps)
    decreases |ps|
  {
    if ps != [] {
      CubePassesStep(ps, pano, target, defaultUav, target);
      CubePassesOwn(ps[1..], pano, target, defaultUav);
      CubeTargetsCons(ps);
    }
  }

  lemma {:induction false} CubePassesOther(ps: seq<CubePass>, pano: Ptr, target: Ptr, defaultUav: Ptr, res: Ptr)
    requires res != target
    ensures UavMips(CubePassesEvents(ps, pano, target, defaultUav), res, true) == []
    decreases |ps|
  {
    if ps != [] {
      CubePassesStep(ps, pano, target, defaultUav, res);
      CubePassesOther(ps[1..], pano, target, defaultUav, res);
    }
  }

  lemma {:induction false} CubePassesDispatch(ps: seq<CubePass>, pano: Ptr, target: Ptr, defaultUav: Ptr)
    ensures Dispatches(CubePassesEvents(ps, pano, target, defaultUav)) == |ps|
    decreases |ps|
  {
    if ps != [] {
      CubePassesStep(ps, pano, target, defaultUav, target);
      CubePassesDispatch(ps[1..], pano, target, defaultUav);
    }
  }

  /** A cube schedule binds the mips its passes write, of `target` and of no other resource, and dispatches once per pass. */
  lemma CubePassesBind(ps: seq<CubePass>, pano: Ptr, target: Ptr, defaultUav: Ptr, res: Ptr)
    ensures UavMips(CubePassesEvents(ps, pano, target, defaultUav), res, true) == if res == target then CubeTargets(ps) else []
    ensures Dispatches(CubePassesEvents(ps, pano, target, defaultUav)) == |ps|
  {
    if res == target {
      CubePassesOwn(ps, pano, target, defaultUav);
    } else {
      CubePassesOther(ps, pano, target, defaultUav, res);
    }
    CubePassesDispatch(ps, pano, target, defaultUav);
  }

  /** PanoToCubemap in five parts, of which only the passes bind or dispatch anything. */
  lemma CubemapSplit(cubemap: Ptr, pano: Ptr, desc: ResourceDesc, staging: Ptr, pipeline: Pipeline, cachedRootSignature: Ptr)
    ensures var target := if NeedsStaging(desc) then staging else cubemap;
      CubemapEvents(cubemap, pano, desc, staging, pipeline, cachedRootSignature) ==
        StagingEvents(cubemap, desc, staging) + TransitionEvents(target, STATE_UNORDERED_ACCESS, ALL_SUBRESOURCES)
        + PipelineEvents(pipeline, cachedRootSignature)
        + CubePassesEvents(CubeSchedule(desc.width, desc.height, desc.mipLevels, 0), pano, target, pipeline.defaultUav)
        + CopyBackEvents(cubemap, desc, staging)
    ensures var target := if NeedsStaging(desc) then staging else cubemap;
      Quiet(StagingEvents(cubemap, desc, staging)) && Quiet(TransitionEvents(target, STATE_UNORDERED_ACCESS, ALL_SUBRESOURCES)) &&
      Quiet(PipelineEvents(pipeline, cachedRootSignature)) && Quiet(CopyBackEvents(cubemap, desc, staging))
  {
    var target := if NeedsStaging(desc) then staging else cubemap;
    Steps5(StagingEvents(cubemap, desc, staging), TransitionEvents(target, STATE_UNORDERED_ACCESS, ALL_SUBRESOURCES),
           PipelineEvents(pipeline, cachedRootSignature),
           CubePassesEvents(CubeSchedule(desc.width, desc.height, desc.mipLevels, 0), pano, target, pipeline.defaultUav),
           CopyBackEvents(cubemap, desc, staging));
    CopyQuiet(staging, cubemap);
    CopyQuiet(cubemap, staging);
    PipelineQuiet(pipeline, cachedRootSignature);
  }

  /**
   * PanoToCubemap binds every mip of the texture it writes (the staging
   * copy when the cubemap lacks UAV access) exactly once, in increasing
   * order, as a six-face array UAV, binds no mip of any other resource, and
   * issues ceil(mipLevels / 5) dispatches.
   */
  lemma PanoToCubemapWritesEachMipOnce(cubemap: Ptr, pano: Ptr, desc: ResourceDesc, staging: Ptr,
                                       pipeline: Pipeline, cachedRootSignature: Ptr, res: Ptr)
    ensures var target := if NeedsStaging(desc) then staging else cubemap;
      var ev := CubemapEvents(cubemap, pano, desc, staging, pipeline, cachedRootSignature);
      UavMips(ev, res, true) == (if res == target then Range(0, desc.mipLevels) else []) &&
      Dispatches(ev) == (desc.mipLevels + 4) / 5
  {
    var target := if NeedsStaging(desc) then staging else cubemap;
    var ps := CubeSchedule(desc.width, desc.height, desc.mipLevels, 0);
    CubemapSplit(cubemap, pano, desc, staging, pipeline, cachedRootSignature);
    FrameProjection(StagingEvents(cubemap, desc, staging), TransitionEvents(target, STATE_UNORDERED_ACCESS, ALL_SUBRESOURCES),
                    PipelineEvents(pipeline, cachedRootSignature), CubePassesEvents(ps, pano, target, pipeline.defaultUav),
                    CopyBackEvents(cubemap, desc, staging), res, true);
    CubePassesBind(ps, pano, target, pipeline.defaultUav, res);
    CubeScheduleCoversEachMipOnce(desc.width, desc.height, desc.mipLevels, 0);
  }

  // ---- The UAV tables: every slot staged once ----------------------------------------

  /** The slots of a root parameter's descriptor table an event stages on the CBV/SRV/UAV heap. */
  function SlotsStaged(e: Event, rootParameter: nat): seq<nat>
  {
    if e.DescriptorsStaged? && e.heapType == HEAP_CBV_SRV_UAV && e.rootParameter == rootParameter
    then Range(e.offset, e.offset + e.count)
    else []
  }

  /** The slots of a root parameter's table a recording stages, in recording order. */
  function StagedSlots(ev: seq<Event>, rootParameter: nat): seq<nat>
    decreases |ev|
  {
    if ev == [] then [] else SlotsStaged(ev[0], rootParameter) + StagedSlots(ev[1..], rootParameter)
  }

  lemma {:induction false} StagedSlotsConcat(a: seq<Event>, b: seq<Event>, rootParameter: nat)
    ensures StagedSlots(a + b, rootParameter) == StagedSlots(a, rootParameter) + StagedSlots(b, rootParameter)
    decreases |a|
  {
    if a == [] {
      assert a + b == b;
    } else {
      assert (a + b)[0] == a[0] && (a + b)[1..] == a[1..] + b;
      StagedSlotsConcat(a[1..], b, rootParameter);
    }
  }

  /** A quiet recording stages no slot of any table. */
  lemma {:induction false} QuietStagesNothing(ev: seq<Event>, rootParameter: nat)
    requires Quiet(ev)
    ensures StagedSlots(ev, rootParameter) == []
    decreases |ev|
  {
    if ev != [] {
      QuietStagesNothing(ev[1..], rootParameter);
    }
  }

  /** A view setter stages the one slot `offset` of its own root parameter, and nothing of any other. */
  lemma ViewEventsStage(rootParameter: nat, offset: nat, r: Ptr, stateAfter: ResourceState, first: u32, count: u32,
                        d: Descriptor, table: nat)
    ensures StagedSlots(ViewEvents(rootParameter, offset, r, stateAfter, first, count, d), table)
      == if table == rootParameter then [offset] else []
  {
    var t := ViewTransitions(r, stateAfter, first, count);
    var tail := [DescriptorsStaged(HEAP_CBV_SRV_UAV, rootParameter, offset, 1, d), Tracked(r)];
    SubresourceTransitionsQuiet(r, stateAfter, first, 0, count);
    QuietStagesNothing(t, table);
    StagedSlotsConcat(t, tail, table);
    assert tail[1..] == [Tracked(r)];
    assert StagedSlots([Tracked(r)], table) == [] by { assert [Tracked(r)][1..] == []; }
    assert Range(offset, offset + 1) == [offset];
  }

  /** Padding stages the slots [used, slots) of its table. */
  lemma PaddingStages(rootParameter: nat, used: nat, slots: nat, defaultUav: Ptr)
    ensures StagedSlots(PaddingEvents(rootParameter, used, slots, defaultUav), rootParameter) == Range(used, slots)
  {
    if used < slots {
      assert Range(used, used + (slots - used)) == Range(used, slots);
    }
  }

  /** A flushed draw or dispatch, optionally followed by a barrier, stages nothing. */
  lemma DrawStagesNothing(call: NativeCall, after: seq<Event>, table: nat)
    requires Quiet(after)
    ensures StagedSlots(DrawEvents(call) + after, table) == []
  {
    var c := Commits(!call.DispatchCall?, 0);
    CommitsQuiet(!call.DispatchCall?, 0);
    QuietStagesNothing([TrackerFlush] + c, table);
    QuietStagesNothing(after, table);
    assert DrawEvents(call) + after == ([TrackerFlush] + c) + [Native(call)] + after;
    StagedSlotsConcat([TrackerFlush] + c, [Native(call)], table);
    StagedSlotsConcat(([TrackerFlush] + c) + [Native(call)], after, table);
  }

  /** A table's slot `slot` staged first, then slots slot+1 .. hi-1. */
  lemma SlotStep(v: seq<Event>, rest: seq<Event>, slot: nat, hi: nat, table: nat)
    requires slot < hi
    requires StagedSlots(v, table) == [slot] && StagedSlots(rest, table) == Range(slot + 1, hi)
    ensures StagedSlots(v + rest, table) == Range(slot, hi)
  {
    StagedSlotsConcat(v, rest, table);
    RangeCons(slot, hi);
  }

  /** The OutMip table, from slot `mip` on, stages slots mip .. count-1, one each. */
  lemma {:induction false} OutMipSlots(tex: Ptr, srcMip: nat, mip: nat, count: nat)
    requires mip <= count
    ensures StagedSlots(OutMipEvents(tex, srcMip, mip, count), MIPS_OUT_PARAM) == Range(mip, count)
    decreases count - mip
  {
    if mip < count {
      var v := ViewEvents(MIPS_OUT_PARAM, mip, tex, STATE_UNORDERED_ACCESS, (srcMip + mip + 1) % U32_MODULUS, 1, Uav(tex, Tex2DUav(srcMip + mip + 1)));
      var rest := OutMipEvents(tex, srcMip, mip + 1, count);
      assert OutMipEvents(tex, srcMip, mip, count) == v + rest;
      ViewEventsStage(MIPS_OUT_PARAM, mip, tex, STATE_UNORDERED_ACCESS, (srcMip + mip + 1) % U32_MODULUS, 1, Uav(tex, Tex2DUav(srcMip + mip + 1)), MIPS_OUT_PARAM);
      OutMipSlots(tex, srcMip, mip + 1, count);
      SlotStep(v, rest, mip, count, MIPS_OUT_PARAM);
    }
  }

  /** The cube UAV table, from slot `mip` on, stages slots mip .. count-1, one each. */
  lemma {:induction false} CubeUavSlots(target: Ptr, firstMip: nat, mip: nat, count: nat)
    requires mip <= count
    ensures StagedSlots(CubeUavEvents(target, firstMip, mip, count), CUBE_DST_PARAM) == Range(mip, count)
    decreases count - mip
  {
    if mip < count {
      var v := ViewEvents(CUBE_DST_PARAM, mip, target, STATE_UNORDERED_ACCESS, 0, 0, Uav(target, CubeArrayUav(firstMip + mip)));
      var rest := CubeUavEvents(target, firstMip, mip + 1, count);
      assert CubeUavEvents(target, firstMip, mip, count) == v + rest;
      ViewEventsStage(CUBE_DST_PARAM, mip, target, STATE_UNORDERED_ACCESS, 0, 0, Uav(target, CubeArrayUav(firstMip + mip)), CUBE_DST_PARAM);
      CubeUavSlots(target, firstMip, mip + 1, count);
      SlotStep(v, rest, mip, count, CUBE_DST_PARAM);
    }
  }

  /** A pass of five parts stages, in its table, what its third and fourth parts stage. */
  lemma SlotsProjection(a: seq<Event>, b: seq<Event>, c: seq<Event>, d: seq<Event>, e: seq<Event>, table: nat)
    requires StagedSlots(a, table) == [] && StagedSlots(b, table) == [] && StagedSlots(e, table) == []
    ensures StagedSlots(a + b + c + d + e, table) == StagedSlots(c, table) + StagedSlots(d, table)
  {
    var sc, sd := StagedSlots(c, table), StagedSlots(d, table);
    StagedSlotsConcat(a, b, table);
    assert StagedSlots(a + b, table) == [];
    StagedSlotsConcat(a + b, c, table);
    assert StagedSlots(a + b + c, table) == sc;
    StagedSlotsConcat(a + b + c, d, table);
    StagedSlotsConcat(a + b + c + d, e, table);
    assert (sc + sd) + [] == sc + sd;
  }

  /**
   * Every GenerateMips pass stages each of the four OutMip slots exactly once,
   * in order: its own UAVs fill slots 0 .. mipCount-1 and the default-UAV
   * padding the rest, so the shader never reads an unset descriptor.
   */
  lemma MipsPassFillsOutMipTable(p: MipsPass, tex: Ptr, srgb: bool, levels: nat, defaultUav: Ptr)
    requires p.mipCount <= MIPS_PER_PASS
    ensures StagedSlots(MipsPassEvents(p, tex, srgb, levels, defaultUav), MIPS_OUT_PARAM) == Range(0, MIPS_PER_PASS)
  {
    var k := [Native(SetComputeRoot32BitConstantsCall(MIPS_CB_PARAM, MipsConstants(p.srcMip, p.mipCount, p.srcDimension, srgb)))];
    var v := ViewEvents(MIPS_SRC_PARAM, 0, tex, STATE_NON_PIXEL_SHADER_RESOURCE, p.srcMip % U32_MODULUS, 1, Srv(tex, Tex2DSrv(srgb, levels)));
    var o := OutMipEvents(tex, p.srcMip, 0, p.mipCount);
    var pad := PaddingEvents(MIPS_OUT_PARAM, p.mipCount, MIPS_PER_PASS, defaultUav);
    MipsPassSplit(p, tex, srgb, levels, defaultUav);
    assert StagedSlots(k, MIPS_OUT_PARAM) == [] by { assert k[1..] == []; }
    ViewEventsStage(MIPS_SRC_PARAM, 0, tex, STATE_NON_PIXEL_SHADER_RESOURCE, p.srcMip % U32_MODULUS, 1, Srv(tex, Tex2DSrv(srgb, levels)), MIPS_OUT_PARAM);
    OutMipSlots(tex, p.srcMip, 0, p.mipCount);
    PaddingStages(MIPS_OUT_PARAM, p.mipCount, MIPS_PER_PASS, defaultUav);
    DrawStagesNothing(DispatchCall(p.groupsX, p.groupsY, 1), [TrackerBarrier(UavBarrier(tex))], MIPS_OUT_PARAM);
    SlotsProjection(k, v, o, pad, DrawEvents(DispatchCall(p.groupsX, p.groupsY, 1)) + [TrackerBarrier(UavBarrier(tex))], MIPS_OUT_PARAM);
    RangeSplit(0, p.mipCount, MIPS_PER_PASS);
  }

  /**
   * Every PanoToCubemap pass stages each of the five DstMips slots exactly
   * once, in order: its own cube UAVs, then the default-UAV padding.
   */
  lemma CubePassFillsDstMipTable(p: CubePass, pano: Ptr, target: Ptr, defaultUav: Ptr)
    requires p.numMips <= CUBE_MIPS_PER_PASS
    ensures StagedSlots(CubePassEvents(p, pano, target, defaultUav), CUBE_DST_PARAM) == Range(0, CUBE_MIPS_PER_PASS)
  {
    var k := [Native(SetComputeRoot32BitConstantsCall(CUBE_CB_PARAM, CubeConstants(p.firstMip, p.numMips, p.cubemapSize)))];
    var v := ViewEvents(CUBE_SRC_PARAM, 0, pano, STATE_NON_PIXEL_SHADER_RESOURCE, 0, ALL_SUBRESOURCES, Srv(pano, DefaultView));
    var o := CubeUavEvents(target, p.firstMip, 0, p.numMips);
    var pad := PaddingEvents(CUBE_DST_PARAM, p.numMips, CUBE_MIPS_PER_PASS, defaultUav);
    CubePassSplit(p, pano, target, defaultUav);
    assert StagedSlots(k, CUBE_DST_PARAM) == [] by { assert k[1..] == []; }
    ViewEventsStage(CUBE_SRC_PARAM, 0, pano, STATE_NON_PIXEL_SHADER_RESOURCE, 0, ALL_SUBRESOURCES, Srv(pano, DefaultView), CUBE_DST_PARAM);
    CubeUavSlots(target, p.firstMip, 0, p.numMips);
    PaddingStages(CUBE_DST_PARAM, p.numMips, CUBE_MIPS_PER_PASS, defaultUav);
    DrawStagesNothing(DispatchCall(p.groups, p.groups, 6), [], CUBE_DST_PARAM);
    assert DrawEvents(DispatchCall(p.groups, p.groups, 6)) + [] == DrawEvents(DispatchCall(p.groups, p.groups, 6));
    SlotsProjection(k, v, o, pad, DrawEvents(DispatchCall(p.groups, p.groups, 6)), CUBE_DST_PARAM);
    RangeSplit(0, p.numMips, CUBE_MIPS_PER_PASS);
  }
}
