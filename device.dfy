/**
 * The Device: owner of the three command queues (direct, compute, copy) and
 * of one descriptor allocator per descriptor-heap type, kept in a
 * process-wide singleton. The queues and allocators are opaque: what the
 * device asks of them is appended to a ghost log.
 */
module DeviceModel {
  import opened D3D

  /** D3D_ROOT_SIGNATURE_VERSION: 1.0 is 0x1, 1.1 is 0x2. */
  type RootSignatureVersion = v: nat | v == 1 || v == 2 witness 1
  const ROOT_SIGNATURE_VERSION_1_0: RootSignatureVersion := 1
  const ROOT_SIGNATURE_VERSION_1_1: RootSignatureVersion := 2

  /**
   * The root signature version recorded at construction. The feature query is
   * made with 1.1 requested; `answer` is None when it fails and otherwise the
   * highest version the driver reports (never above the requested one).
   */
  function HighestRootSignatureVersion(answer: Option<RootSignatureVersion>): (v: RootSignatureVersion)
    ensures v == ROOT_SIGNATURE_VERSION_1_0 <==> answer.None? || answer.value == ROOT_SIGNATURE_VERSION_1_0
    ensures v <= ROOT_SIGNATURE_VERSION_1_1
  {
    match answer
    case None => ROOT_SIGNATURE_VERSION_1_0
    case Some(reported) => reported
  }

  /** DXGI_SAMPLE_DESC */
  datatype SampleDesc = SampleDesc(count: u32, quality: u32)

  /** The answer of the multisample-quality feature query for a sample count: None when the call fails. */
  type QualityQuery = nat -> Option<u32>

  /** The query for `count` samples succeeds and reports at least one quality level. */
  ghost predicate Supported(query: QualityQuery, numSamples: nat, count: nat)
  {
    count <= numSamples && query(count).Some? && query(count).value > 0
  }

  predicate IsPowerOfTwo(n: nat)
    decreases n
  {
    n == 1 || (n > 1 && n % 2 == 0 && IsPowerOfTwo(n / 2))
  }

  /**
   * The search GetMultisampleQualityLevels performs, from sample count `count`
   * with `best` found so far: try count, 2·count, 4·count, … while the query
   * succeeds with levels > 0, keeping the last success.
   */
  ghost function MsaaSearch(query: QualityQuery, numSamples: nat, count: nat, best: SampleDesc): SampleDesc
    requires numSamples < 0x8000_0000 && count >= 1
    decreases 2 * numSamples + 1 - count
  {
    if count <= numSamples && query(count).Some? && query(count).value > 0 then
      var c: u32 := count;   // count <= numSamples < 2^31
      MsaaSearch(query, numSamples, 2 * count, SampleDesc(c, query(count).value - 1))
    else best
  }

  /**
   * What the search returns. Either the first query (one sample) already
   * fails and the answer is {1, 0}; or every power of two up to the returned
   * count succeeded, the returned quality is that count's level count minus
   * one, and the next power of two is not supported.
   */
  lemma {:induction false} MsaaSearchResult(query: QualityQuery, numSamples: nat, count: nat, best: SampleDesc)
    requires numSamples < 0x8000_0000
    requires count >= 1 && IsPowerOfTwo(count)
    requires forall c: nat :: IsPowerOfTwo(c) && c < count ==> Supported(query, numSamples, c)
    requires count > 1 ==>
      (Supported(query, numSamples, count / 2) && best.count == count / 2 && best.quality == query(count / 2).value - 1)
    ensures var r := MsaaSearch(query, numSamples, count, best);
      (count == 1 && !Supported(query, numSamples, 1) ==> r == best) &&
      (Supported(query, numSamples, count) || count > 1 ==>
        r.count >= 1 && IsPowerOfTwo(r.count) &&
        (forall c: nat :: IsPowerOfTwo(c) && c <= r.count ==> Supported(query, numSamples, c)) &&
        r.quality == query(r.count).value - 1 &&
        !Supported(query, numSamples, 2 * r.count))
    decreases 2 * numSamples + 1 - count
  {
    if Supported(query, numSamples, count) {
      var next := SampleDesc(count, query(count).value - 1);
      assert IsPowerOfTwo(2 * count) by { assert (2 * count) / 2 == count; }
      forall c: nat | IsPowerOfTwo(c) && c < 2 * count
        ensures Supported(query, numSamples, c)
      {
        if c > count {
          PowerOfTwoGap(c, count);
        }
      }
      MsaaSearchResult(query, numSamples, 2 * count, next);
    } else if count > 1 {
      assert (count / 2) * 2 == count by { PowerOfTwoEven(count); }
      forall c: nat | IsPowerOfTwo(c) && c <= count / 2
        ensures Supported(query, numSamples, c)
      {
      }
    }
  }

  lemma PowerOfTwoEven(n: nat)
    requires IsPowerOfTwo(n) && n > 1
    ensures n % 2 == 0
  {
  }

  /** There is no power of two strictly between p and 2p. */
  lemma {:induction false} PowerOfTwoGap(c: nat, p: nat)
    requires IsPowerOfTwo(c) && IsPowerOfTwo(p) && p < c
    ensures c >= 2 * p
    decreases c
  {
    if p > 1 {
      PowerOfTwoGap(c / 2, p / 2);
    } else {
      assert c > 1;
    }
  }

  /** The calls the device makes on its queues and descriptor allocators. */
  datatype DeviceEvent =
    | QueueCreated(listType: ListType)
    | AllocatorCreated(heapType: HeapType)
    | QueueFlushed(listType: ListType)
    | DescriptorsAllocated(heapType: HeapType, count: u32)
    | StaleDescriptorsReleased(heapType: HeapType, finishedFrame: u64)

  /** One allocator created per heap type, from `first` on, in heap-type order. */
  function AllocatorCreations(first: nat): (events: seq<DeviceEvent>)
    requires first <= NUM_HEAP_TYPES
    ensures |events| == NUM_HEAP_TYPES - first
    ensures forall i :: 0 <= i < |events| ==> events[i] == AllocatorCreated(first + i)
    decreases NUM_HEAP_TYPES - first
  {
    if first == NUM_HEAP_TYPES then [] else [AllocatorCreated(first)] + AllocatorCreations(first + 1)
  }

  /** The stale-descriptor release forwarded to every allocator from `first` on. */
  function StaleReleases(first: nat, finishedFrame: u64): (events: seq<DeviceEvent>)
    requires first <= NUM_HEAP_TYPES
    decreases NUM_HEAP_TYPES - first
  {
    if first == NUM_HEAP_TYPES then [] else [StaleDescriptorsReleased(first, finishedFrame)] + StaleReleases(first + 1, finishedFrame)
  }

  /**
   * ReleaseStaleDescriptors reaches every heap type's allocator exactly once,
   * in heap-type order, each with the same finished frame.
   */
  lemma {:induction false} StaleReleasesReachEveryAllocator(first: nat, finishedFrame: u64)
    requires first <= NUM_HEAP_TYPES
    ensures |StaleReleases(first, finishedFrame)| == NUM_HEAP_TYPES - first
    ensures forall i :: 0 <= i < NUM_HEAP_TYPES - first ==>
      StaleReleases(first, finishedFrame)[i] == StaleDescriptorsReleased(first + i, finishedFrame)
    decreases NUM_HEAP_TYPES - first
  {
    if first < NUM_HEAP_TYPES {
      StaleReleasesReachEveryAllocator(first + 1, finishedFrame);
    }
  }

  /** The queue flushes Flush performs: copy, then compute, then direct. */
  const FLUSH_ORDER: seq<DeviceEvent> := [QueueFlushed(LIST_COPY), QueueFlushed(LIST_COMPUTE), QueueFlushed(LIST_DIRECT)]

  class Device {
    var directQueue: Ptr
    var computeQueue: Ptr
    var copyQueue: Ptr
    const rootSignatureVersion: RootSignatureVersion
    ghost var log: seq<DeviceEvent>

    /** After Init: three distinct live queues. */
    ghost predicate Valid()
      reads this
    {
      directQueue != Null && computeQueue != Null && copyQueue != Null &&
      directQueue != computeQueue && directQueue != copyQueue && computeQueue != copyQueue
    }

    /**
     * The constructor queries the root signature feature (`answer`, see
     * HighestRootSignatureVersion); the queues exist only after Init.
     */
    constructor (answer: Option<RootSignatureVersion>)
      ensures rootSignatureVersion == HighestRootSignatureVersion(answer)
      ensures directQueue == Null && computeQueue == Null && copyQueue == Null
      ensures log == []
    {
      rootSignatureVersion := HighestRootSignatureVersion(answer);
      directQueue := Null;
      computeQueue := Null;
      copyQueue := Null;
      log := [];
    }

    /**
     * Creates the direct, compute and copy queues (`direct`, `compute` and
     * `copy` are the new objects) and then one descriptor allocator per heap
     * type.
     */
    method Init(direct: Ptr, compute: Ptr, copy: Ptr)
      requires direct != Null && compute != Null && copy != Null
      requires direct != compute && direct != copy && compute != copy
      modifies this
      ensures Valid()
      ensures directQueue == direct && computeQueue == compute && copyQueue == copy
      ensures log == old(log) + [QueueCreated(LIST_DIRECT), QueueCreated(LIST_COMPUTE), QueueCreated(LIST_COPY)]
                              + AllocatorCreations(0)
    {
      directQueue := direct;
      log := log + [QueueCreated(LIST_DIRECT)];
      computeQueue := compute;
      log := log + [QueueCreated(LIST_COMPUTE)];
      copyQueue := copy;
      log := log + [QueueCreated(LIST_COPY)];
      ghost var before := log;
      assert before == old(log) + [QueueCreated(LIST_DIRECT), QueueCreated(LIST_COMPUTE), QueueCreated(LIST_COPY)];
      var i := 0;
      while i < NUM_HEAP_TYPES
        invariant 0 <= i <= NUM_HEAP_TYPES
        invariant log + AllocatorCreations(i) == before + AllocatorCreations(0)
        invariant directQueue == direct && computeQueue == compute && copyQueue == copy
      {
        log := log + [AllocatorCreated(i)];
        i := i + 1;
      }
    }

    /**
     * The queue serving a command-list type. DIRECT, COMPUTE and COPY each
     * have their own queue; any other type is an assertion failure in a debug
     * build and an empty pointer otherwise.
     */
    function GetCommandQueue(listType: ListType): (q: Ptr)
      reads this
      ensures Valid() ==> (q != Null <==> listType == LIST_DIRECT || listType == LIST_COMPUTE || listType == LIST_COPY)
    {
      if listType == LIST_DIRECT then directQueue
      else if listType == LIST_COMPUTE then computeQueue
      else if listType == LIST_COPY then copyQueue
      else Null
    }

    /** Distinct command-list types are served by distinct queues. */
    lemma QueuesAreDistinct(a: ListType, b: ListType)
      requires Valid()
      requires GetCommandQueue(a) != Null && GetCommandQueue(a) == GetCommandQueue(b)
      ensures a == b
    {
    }

    /** Flushes the copy, compute and direct queues, in that order. */
    method Flush()
      requires Valid()
      modifies this`log
      ensures log == old(log) + FLUSH_ORDER
    {
      log := log + [QueueFlushed(LIST_COPY)];
      log := log + [QueueFlushed(LIST_COMPUTE)];
      log := log + [QueueFlushed(LIST_DIRECT)];
    }

    /** Routes an allocation to the allocator of the requested heap type only. */
    method AllocateDescriptors(heapType: HeapType, count: u32)
      modifies this`log
      ensures log == old(log) + [DescriptorsAllocated(heapType, count)]
    {
      log := log + [DescriptorsAllocated(heapType, count)];
    }

    /** Forwards the finished frame to the allocator of every heap type. */
    method ReleaseStaleDescriptors(finishedFrame: u64)
      modifies this`log
      ensures log == old(log) + StaleReleases(0, finishedFrame)
    {
      var i := 0;
      while i < NUM_HEAP_TYPES
        invariant 0 <= i <= NUM_HEAP_TYPES
        invariant log + StaleReleases(i, finishedFrame) == old(log) + StaleReleases(0, finishedFrame)
      {
        log := log + [StaleDescriptorsReleased(i, finishedFrame)];
        i := i + 1;
      }
    }

    /**
     * The best multisample description supported for `numSamples` samples:
     * sample counts 1, 2, 4, … are queried while they do not exceed
     * numSamples and the query succeeds with at least one quality level.
     */
    method GetMultisampleQualityLevels(numSamples: u32, query: QualityQuery) returns (desc: SampleDesc)
      requires numSamples < 0x8000_0000
      ensures desc == MsaaSearch(query, numSamples, 1, SampleDesc(1, 0))
      ensures !Supported(query, numSamples, 1) ==> desc == SampleDesc(1, 0)
      ensures desc.count >= 1 && IsPowerOfTwo(desc.count)
      ensures Supported(query, numSamples, 1) ==>
        (forall c: nat :: IsPowerOfTwo(c) && c <= desc.count ==> Supported(query, numSamples, c)) &&
        desc.quality == query(desc.count).value - 1 &&
        !Supported(query, numSamples, 2 * desc.count)
    {
      desc := SampleDesc(1, 0);
      var sampleCount: nat := 1;
      while sampleCount <= numSamples && query(sampleCount).Some? && query(sampleCount).value > 0
        invariant sampleCount >= 1 && sampleCount <= 2 * numSamples + 1
        invariant MsaaSearch(query, numSamples, sampleCount, desc) == MsaaSearch(query, numSamples, 1, SampleDesc(1, 0))
        decreases 2 * numSamples + 1 - sampleCount
      {
        desc := SampleDesc(sampleCount, query(sampleCount).value - 1);
        sampleCount := sampleCount * 2;
      }
      MsaaSearchResult(query, numSamples, 1, SampleDesc(1, 0));
    }
  }

  /** The process-wide device slot and its create-once / destroy lifecycle. */
  class DeviceSingleton {
    var current: Device?

    constructor ()
      ensures current == null
    {
      current := null;
    }

    /**
     * Creates and initialises the device when none exists; otherwise does
     * nothing. `answer` and the queue objects stand for the construction's
     * feature query and the new queues.
     */
    method CreateDevice(answer: Option<RootSignatureVersion>, direct: Ptr, compute: Ptr, copy: Ptr)
      requires direct != Null && compute != Null && copy != Null
      requires direct != compute && direct != copy && compute != copy
      modifies this
      ensures current != null
      ensures old(current) != null ==> current == old(current)
      ensures old(current) == null ==>
        (fresh(current) && current.Valid() && current.rootSignatureVersion == HighestRootSignatureVersion(answer))
      ensures old(current) == null ==>
        current.directQueue == direct && current.computeQueue == compute && current.copyQueue == copy &&
        current.log == [QueueCreated(LIST_DIRECT), QueueCreated(LIST_COMPUTE), QueueCreated(LIST_COPY)] + AllocatorCreations(0)
    {
      if current == null {
        var device := new Device(answer);
        device.Init(direct, compute, copy);
        current := device;
      }
    }

    /** Flushes and forgets the device when one exists; otherwise does nothing. */
    method DestroyDevice()
      requires current != null ==> current.Valid()
      modifies this, current
      ensures current == null
      ensures old(current) != null ==> old(current).log == old(current.log) + FLUSH_ORDER
    {
      if current != null {
        current.Flush();
        current := null;
      }
    }

    /** The device; asserted to exist. */
    method Get() returns (device: Device)
      requires current != null
      ensures device == current
    {
      device := current;
    }
  }
}
