/**
 * The integer arithmetic of the command list's two compute utilities:
 *  - GenerateMips: each dispatch reads one source mip and writes up to four
 *    destination mips; how many is decided from the trailing zero bits of the
 *    destination size, and unused UAV slots are padded to four;
 *  - PanoToCubemap: each dispatch writes up to five cubemap mips, padded to
 *    five slots, with a cubemap face size of max(width, height) >> firstMip.
 * Also the value decisions GenerateMips makes before it records anything
 * (forward, skip, reject, run in place, run through an alias) and the flag
 * arithmetic of the alias description.
 */
module MipSchedule {
  import opened D3D

  const U32_MODULUS: nat := 0x1_0000_0000

  /** Thread-group edge of the GenerateMips shader and of the PanoToCubemap shader. */
  const MIPS_GROUP_SIZE: nat := 8
  const CUBE_GROUP_SIZE: nat := 16

  /** UAV slots of the OutMip table (GenerateMips) and of the DstMips table (PanoToCubemap). */
  const MIPS_PER_PASS: nat := 4
  const CUBE_MIPS_PER_PASS: nat := 5

  function Min(a: nat, b: nat): nat { if a <= b then a else b }
  function Max(a: nat, b: nat): nat { if a >= b then a else b }

  /** `x >> k` on an unsigned value: k halvings. */
  function Shr(x: nat, k: nat): nat
  {
    if k == 0 then x else Shr(x, k - 1) / 2
  }

  lemma {:induction false} ShrBound(x: nat, k: nat)
    ensures Shr(x, k) <= x
  {
    if k > 0 {
      ShrBound(x, k - 1);
    }
  }

  /** Shifting by k+1 is halving first and then shifting by k. */
  lemma {:induction false} ShrHalf(x: nat, k: nat)
    ensures Shr(x, k + 1) == Shr(x / 2, k)
  {
    if k > 0 {
      ShrHalf(x, k - 1);
    }
  }

  /** Bit k of x. */
  function Bit(x: nat, k: nat): bool
  {
    Shr(x, k) % 2 == 1
  }

  /** The bitwise OR of two unsigned values. */
  function BitOr(a: nat, b: nat): nat
  {
    if a == 0 && b == 0 then 0
    else 2 * BitOr(a / 2, b / 2) + (if a % 2 == 1 || b % 2 == 1 then 1 else 0)
  }

  /** _BitScanForward on a non-zero value: how many times it can be halved exactly. */
  function TrailingZeros(v: nat): nat
    requires v > 0
    decreases v
  {
    if v % 2 == 1 then 0 else 1 + TrailingZeros(v / 2)
  }

  /** TrailingZeros is the index of the lowest set bit. */
  lemma {:induction false} TrailingZerosIsLowestSetBit(v: nat)
    requires v > 0
    ensures Bit(v, TrailingZeros(v))
    ensures forall j :: 0 <= j < TrailingZeros(v) ==> !Bit(v, j)
    decreases v
  {
    if v % 2 == 0 {
      var r' := TrailingZeros(v / 2);
      TrailingZerosIsLowestSetBit(v / 2);
      ShrHalf(v, r');
      assert !Bit(v, 0);
      forall j | 0 < j < r' + 1
        ensures !Bit(v, j)
      {
        ShrHalf(v, j - 1);
        assert !Bit(v / 2, j - 1);
      }
    }
  }

  /** The value GenerateMips scans, from the destination size as the code computes it. */
  function ScannedValueAsWritten(dstWidth: u32, dstHeight: u32): nat
  {
    var a := if dstWidth == 1 then dstHeight else dstWidth;
    var b := if dstHeight == 1 then dstWidth else dstHeight;
    BitOr(a, b)
  }

  /**
   * The scanned value with each destination dimension first clamped to at
   * least 1 (the clamp the code applies only after the scan). It is never 0,
   * so the bit scan always finds a bit.
   */
  function ScannedValue(dstWidth: u32, dstHeight: u32): (r: nat)
    ensures r > 0
  {
    var w := Max(1, dstWidth);
    var h := Max(1, dstHeight);
    var a := if w == 1 then h else w;
    var b := if h == 1 then w else h;
    BitOrBounds(a, b);
    BitOr(a, b)
  }

  /** The OR is 0 exactly when both operands are, and it is at least either operand. */
  lemma {:induction false} BitOrBounds(a: nat, b: nat)
    ensures BitOr(a, b) == 0 <==> a == 0 && b == 0
    ensures BitOr(a, b) >= a && BitOr(a, b) >= b
  {
    if a != 0 || b != 0 {
      BitOrBounds(a / 2, b / 2);
    }
  }

  lemma {:induction false} BitOrIdentities(a: nat)
    ensures BitOr(a, a) == a && BitOr(a, 0) == a && BitOr(0, a) == a
  {
    if a > 0 {
      BitOrIdentities(a / 2);
    }
  }

  /** Whenever the code's scan finds a bit, the clamped scan finds the same value. */
  lemma ScanAgreesWhenNonZero(dstWidth: u32, dstHeight: u32)
    requires ScannedValueAsWritten(dstWidth, dstHeight) != 0
    ensures ScannedValue(dstWidth, dstHeight) == ScannedValueAsWritten(dstWidth, dstHeight)
  {
    if dstWidth == 0 {
      BitOrIdentities(dstHeight);
    } else if dstHeight == 0 {
      BitOrIdentities(dstWidth);
    }
  }

  /**
   * The code's scan is 0, so _BitScanForward reports no bit and leaves the
   * pass's mip count undefined, exactly when one destination dimension is 1
   * and the other has already reached 0 (or both are 0).
   */
  lemma ScanAsWrittenZero(dstWidth: u32, dstHeight: u32)
    ensures ScannedValueAsWritten(dstWidth, dstHeight) == 0 <==>
      (dstWidth <= 1 && dstHeight <= 1 && (dstWidth == 0 || dstHeight == 0))
  {
    var a := if dstWidth == 1 then dstHeight else dstWidth;
    var b := if dstHeight == 1 then dstWidth else dstHeight;
    BitOrBounds(a, b);
  }

  /**
   * The first pass over a 2x1 texture with two mips: the destination is 1x0,
   * the scanned value is 0 and the code's mip count is undefined, while the
   * clamped scan gives one mip.
   */
  lemma WideTextureScansZero()
    ensures MipsPassAt(2, 1, 2, 0).mipCount == 1
    ensures ScannedValueAsWritten(Shr(2, 0) / 2, Shr(1, 0) / 2) == 0
  {
    assert Shr(2, 0) == 2 && Shr(1, 0) == 1;
    assert ScannedValue(1, 0) == 1;
    assert TrailingZeros(1) == 0;
  }

  /** mipCount = min(4, tz + 1), clamped to the mips left after srcMip. */
  function PassMipCount(levels: nat, srcMip: nat, scanned: nat): (r: nat)
    requires scanned > 0 && srcMip + 1 < levels
    ensures 1 <= r <= MIPS_PER_PASS
    ensures srcMip + r < levels
  {
    var c := Min(MIPS_PER_PASS, TrailingZeros(scanned) + 1);
    if srcMip + c >= levels then levels - srcMip - 1 else c
  }

  /**
   * The 2-bit discriminant of the source level: bit 0 set iff the width is
   * odd, bit 1 set iff the height is odd.
   */
  function SrcDimension(srcWidth: nat, srcHeight: nat): (r: nat)
    ensures r < 4
    ensures r % 2 == srcWidth % 2
    ensures r / 2 == srcHeight % 2
  {
    2 * (srcHeight % 2) + srcWidth % 2
  }

  /** Math::DivideByMultiple: the number of blocks of `alignment` needed to cover `value`. */
  function DivideByMultiple(value: nat, alignment: nat): (r: nat)
    requires alignment > 0
    ensures r * alignment >= value
    ensures r * alignment < value + alignment
  {
    var q := (value + alignment - 1) / alignment;
    var s := (value + alignment - 1) % alignment;
    assert value + alignment - 1 == alignment * q + s;
    q
  }

  /** What one GenerateMips dispatch does. */
  datatype MipsPass = MipsPass(
    srcMip: nat,            // the mip read through the SRV
    mipCount: nat,          // destination mips srcMip+1 .. srcMip+mipCount are written
    srcDimension: nat,      // odd/even discriminant of the source level
    dstWidth: nat,          // size of the first destination mip, clamped to at least 1
    dstHeight: nat,
    groupsX: nat,           // thread groups dispatched
    groupsY: nat)

  /** The pass that starts at `srcMip` of a width x height texture with `levels` mips. */
  function MipsPassAt(width: u64, height: u32, levels: nat, srcMip: nat): (p: MipsPass)
    requires srcMip + 1 < levels
    ensures p.srcMip == srcMip
    ensures 1 <= p.mipCount <= MIPS_PER_PASS && srcMip + p.mipCount < levels
    ensures p.srcDimension < 4
    ensures p.dstWidth >= 1 && p.dstHeight >= 1
    ensures p.groupsX * MIPS_GROUP_SIZE >= p.dstWidth && p.groupsY * MIPS_GROUP_SIZE >= p.dstHeight
  {
    var srcWidth := Shr(width, srcMip);
    var srcHeight := Shr(height, srcMip);
    ShrBound(height, srcMip);
    var dstWidth: u32 := (srcWidth / 2) % U32_MODULUS;
    var dstHeight: u32 := srcHeight / 2;
    var count := PassMipCount(levels, srcMip, ScannedValue(dstWidth, dstHeight));
    var w := Max(1, dstWidth);
    var h := Max(1, dstHeight);
    MipsPass(srcMip, count, SrcDimension(srcWidth, srcHeight), w, h,
             DivideByMultiple(w, MIPS_GROUP_SIZE), DivideByMultiple(h, MIPS_GROUP_SIZE))
  }

  /** The passes GenerateMips records from `srcMip` on: the loop `srcMip < levels - 1`. */
  function MipsSchedule(width: u64, height: u32, levels: nat, srcMip: nat): (passes: seq<MipsPass>)
    decreases levels - srcMip
  {
    if srcMip + 1 >= levels then []
    else
      var p := MipsPassAt(width, height, levels, srcMip);
      [p] + MipsSchedule(width, height, levels, srcMip + p.mipCount)
  }

  /** The integers lo, lo+1, …, hi-1. */
  function Range(lo: nat, hi: nat): (r: seq<nat>)
    ensures |r| == if lo <= hi then hi - lo else 0
    ensures forall i :: 0 <= i < |r| ==> r[i] == lo + i
    decreases hi - lo
  {
    if lo >= hi then [] else [lo] + Range(lo + 1, hi)
  }

  lemma {:induction false} RangeSplit(lo: nat, mid: nat, hi: nat)
    requires lo <= mid <= hi
    ensures Range(lo, mid) + Range(mid, hi) == Range(lo, hi)
  {
    var a := Range(lo, mid) + Range(mid, hi);
    var b := Range(lo, hi);
    assert |a| == |b|;
    forall i | 0 <= i < |a|
      ensures a[i] == b[i]
    {
      if i < mid - lo {
        assert a[i] == Range(lo, mid)[i];
      } else {
        assert a[i] == Range(mid, hi)[i - (mid - lo)];
      }
    }
  }

  /** The destination mips a GenerateMips pass writes. */
  function PassTargets(p: MipsPass): seq<nat>
  {
    Range(p.srcMip + 1, p.srcMip + 1 + p.mipCount)
  }

  function AllTargets(passes: seq<MipsPass>): seq<nat>
  {
    if passes == [] then [] else PassTargets(passes[0]) + AllTargets(passes[1..])
  }

  /**
   * A sequence of passes that starts reading at srcMip, where each pass reads
   * the last mip its predecessor wrote and the last pass writes mip levels-1.
   */
  ghost predicate Chained(ps: seq<MipsPass>, srcMip: nat, levels: nat)
    decreases |ps|
  {
    if ps == [] then srcMip + 1 >= levels
    else
      ps[0].srcMip == srcMip && 1 <= ps[0].mipCount <= MIPS_PER_PASS && srcMip + ps[0].mipCount < levels &&
      Chained(ps[1..], srcMip + ps[0].mipCount, levels)
  }

  /**
   * The passes are chained: the first reads srcMip, each later one reads the
   * last mip its predecessor wrote (so srcMip strictly increases), the last
   * writes the smallest mip, and each pass writes between one and four mips.
   */
  lemma {:induction false} MipsScheduleChained(width: u64, height: u32, levels: nat, srcMip: nat)
    ensures Chained(MipsSchedule(width, height, levels, srcMip), srcMip, levels)
    decreases levels - srcMip
  {
    if srcMip + 1 < levels {
      var p := MipsPassAt(width, height, levels, srcMip);
      var rest := MipsSchedule(width, height, levels, srcMip + p.mipCount);
      MipsScheduleChained(width, height, levels, srcMip + p.mipCount);
      assert MipsSchedule(width, height, levels, srcMip) == [p] + rest;
      assert ([p] + rest)[1..] == rest;
    }
  }

  /** The targets of chained passes are srcMip+1 .. levels-1, each once and in order. */
  lemma {:induction false} ChainedCoversEachMipOnce(ps: seq<MipsPass>, srcMip: nat, levels: nat)
    requires Chained(ps, srcMip, levels)
    ensures AllTargets(ps) == Range(srcMip + 1, levels)
    decreases |ps|
  {
    if ps != [] {
      var next := srcMip + ps[0].mipCount;
      ChainedCoversEachMipOnce(ps[1..], next, levels);
      RangeSplit(srcMip + 1, next + 1, levels);
    }
  }

  /**
   * Every mip above the starting one is written exactly once, in increasing
   * order: the passes' targets, concatenated, are srcMip+1 .. levels-1.
   */
  lemma MipsScheduleCoversEachMipOnce(width: u64, height: u32, levels: nat, srcMip: nat)
    ensures AllTargets(MipsSchedule(width, height, levels, srcMip)) == Range(srcMip + 1, levels)
  {
    MipsScheduleChained(width, height, levels, srcMip);
    ChainedCoversEachMipOnce(MipsSchedule(width, height, levels, srcMip), srcMip, levels);
  }

  /** What one PanoToCubemap dispatch does. */
  datatype CubePass = CubePass(
    firstMip: nat,          // first cubemap mip written
    numMips: nat,           // mips firstMip .. firstMip+numMips-1 are written
    cubemapSize: nat,       // face size of the first mip written
    groups: nat)            // thread groups in x and in y (six in z, one per face)

  /** The pass that starts at `mipSlice`. */
  function CubePassAt(width: u64, height: u32, levels: nat, mipSlice: nat): (p: CubePass)
    requires mipSlice < levels
    ensures p.firstMip == mipSlice
    ensures 1 <= p.numMips <= CUBE_MIPS_PER_PASS && mipSlice + p.numMips <= levels
    ensures p.numMips < CUBE_MIPS_PER_PASS ==> mipSlice + p.numMips == levels
    ensures p.groups * CUBE_GROUP_SIZE >= p.cubemapSize
  {
    var numMips := Min(CUBE_MIPS_PER_PASS, levels - mipSlice);
    var size := Shr(Max(width % U32_MODULUS, height), mipSlice);
    CubePass(mipSlice, numMips, size, DivideByMultiple(size, CUBE_GROUP_SIZE))
  }

  /** The passes PanoToCubemap records from `mipSlice` on: the loop `mipSlice < levels`. */
  function CubeSchedule(width: u64, height: u32, levels: nat, mipSlice: nat): (passes: seq<CubePass>)
    decreases levels - mipSlice
  {
    if mipSlice >= levels then []
    else
      var p := CubePassAt(width, height, levels, mipSlice);
      [p] + CubeSchedule(width, height, levels, mipSlice + p.numMips)
  }

  function CubeTargets(passes: seq<CubePass>): seq<nat>
  {
    if passes == [] then [] else Range(passes[0].firstMip, passes[0].firstMip + passes[0].numMips) + CubeTargets(passes[1..])
  }

  /**
   * Every cubemap mip from mipSlice on is written exactly once, in order, in
   * ceil((levels - mipSlice) / 5) passes.
   */
  lemma {:induction false} CubeScheduleCoversEachMipOnce(width: u64, height: u32, levels: nat, mipSlice: nat)
    requires mipSlice <= levels
    ensures CubeTargets(CubeSchedule(width, height, levels, mipSlice)) == Range(mipSlice, levels)
    ensures |CubeSchedule(width, height, levels, mipSlice)| == (levels - mipSlice + 4) / 5
    decreases levels - mipSlice
  {
    var ps := CubeSchedule(width, height, levels, mipSlice);
    if mipSlice < levels {
      var p := CubePassAt(width, height, levels, mipSlice);
      assert ps[0] == p && ps[1..] == CubeSchedule(width, height, levels, mipSlice + p.numMips);
      CubeScheduleCoversEachMipOnce(width, height, levels, mipSlice + p.numMips);
      RangeSplit(mipSlice, mipSlice + p.numMips, levels);
    }
  }

  /**
   * The face size of every pass is max(width as u32, height) >> firstMip, and
   * each mip's face is half the previous one's (rounded down).
   */
  lemma CubemapSizeHalves(width: u64, height: u32, levels: nat, mipSlice: nat)
    requires mipSlice + 1 < levels
    ensures CubePassAt(width, height, levels, mipSlice + 1).cubemapSize == CubePassAt(width, height, levels, mipSlice).cubemapSize / 2
    ensures CubePassAt(width, height, levels, 0).cubemapSize == Max(width % U32_MODULUS, height)
  {
  }

  /**
   * The description of the alias used when the texture cannot be written
   * through a UAV: UAV access is added, render-target and depth-stencil
   * access removed (placed resources in that heap cannot have them), every
   * other flag kept.
   */
  function AliasFlags(flags: ResourceFlags): (r: ResourceFlags)
    ensures r & FLAG_ALLOW_UNORDERED_ACCESS != 0
    ensures r & FLAG_ALLOW_RENDER_TARGET == 0 && r & FLAG_ALLOW_DEPTH_STENCIL == 0
    ensures var others := !(FLAG_ALLOW_UNORDERED_ACCESS | FLAG_ALLOW_RENDER_TARGET | FLAG_ALLOW_DEPTH_STENCIL);
      r & others == flags & others
  {
    (flags | FLAG_ALLOW_UNORDERED_ACCESS) & !(FLAG_ALLOW_RENDER_TARGET | FLAG_ALLOW_DEPTH_STENCIL)
  }

  /** What GenerateMips decides to do before recording anything. */
  datatype MipsPlan =
    | ForwardToCompute    // a copy list hands the work to a compute list
    | NothingToDo         // no resource, or a single mip
    | Unsupported         // not a single-slice, single-sample 2D texture: an exception
    | InPlace             // the texture itself is written through UAVs
    | ViaAlias            // a UAV-compatible alias in a placed heap is written and copied back

  function PlanGenerateMips(listType: ListType, hasResource: bool, desc: ResourceDesc, uavSupported: bool): (plan: MipsPlan)
    ensures plan == ForwardToCompute <==> listType == LIST_COPY
    ensures plan == NothingToDo <==> listType != LIST_COPY && (!hasResource || desc.mipLevels == 1)
    ensures plan == InPlace || plan == ViaAlias ==>
      desc.dimension == Texture2D && desc.depthOrArraySize == 1 && desc.sampleCount <= 1 && desc.mipLevels != 1 && hasResource
    ensures plan == Unsupported ==>
      desc.dimension != Texture2D || desc.depthOrArraySize != 1 || desc.sampleCount > 1
    ensures plan == InPlace ==> uavSupported && desc.flags & FLAG_ALLOW_UNORDERED_ACCESS != 0
    ensures plan == ViaAlias ==> !uavSupported || desc.flags & FLAG_ALLOW_UNORDERED_ACCESS == 0
  {
    if listType == LIST_COPY then ForwardToCompute
    else if !hasResource || desc.mipLevels == 1 then NothingToDo
    else if desc.dimension != Texture2D || desc.depthOrArraySize != 1 || desc.sampleCount > 1 then Unsupported
    else if !uavSupported || desc.flags & FLAG_ALLOW_UNORDERED_ACCESS == 0 then ViaAlias
    else InPlace
  }
}
