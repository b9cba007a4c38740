/**
 * Frame pacing of the alternate-frame-rendering sample: one fence counter
 * shared by all GPU nodes, one fence value per swap-chain back buffer, a
 * frame index selecting the command allocator, and the active node that the
 * affinity layer rotates after every present. The global variables of the
 * sample are the fields of FramePacing; the D3D12 calls it makes are events
 * in a ghost log, and what the GPU reports (completed fence values, the next
 * node, the current back buffer) is passed in.
 */
module AfrSample {
  import opened D3D

  const INITIAL_CLIENT_WIDTH: u32 := 1280
  const INITIAL_CLIENT_HEIGHT: u32 := 720

  /** The number of rows in the sample's clear-colour table. */
  const CLEAR_COLORS: nat := 2

  datatype Counts = Counts(backBufferCount: nat, numFrames: nat)

  /**
   * Back buffers and buffered frames for a node count: with several nodes one
   * back buffer per node and a single frame per node, otherwise two of each.
   */
  function BufferCounts(nodeCount: nat): (c: Counts)
    requires nodeCount >= 1
    ensures c.numFrames >= 1
    ensures c.backBufferCount == c.numFrames * nodeCount
    ensures c.backBufferCount >= 2
    ensures nodeCount > 1 <==> c.numFrames == 1
  {
    var backBuffersPerNode := if nodeCount > 1 then 1 else 2;
    Counts(backBuffersPerNode * nodeCount, if nodeCount > 1 then 1 else 2)
  }

  /** The node the affinity layer activates after `node`: round robin over all nodes. */
  function NextNode(node: nat, nodeCount: nat): nat
    requires nodeCount >= 1
  {
    if node + 1 >= nodeCount then 0 else node + 1
  }

  datatype NodeFrame = NodeFrame(node: nat, frame: nat)

  /** Active node and frame index after one Present. */
  function PresentStep(s: NodeFrame, nodeCount: nat, numFrames: nat): (t: NodeFrame)
    requires nodeCount >= 1 && numFrames >= 1
    requires s.node < nodeCount && s.frame < numFrames
    ensures t.node < nodeCount && t.frame < numFrames
    ensures t.node == 0 ==> t.frame == (s.frame + 1) % numFrames
    ensures t.node != 0 ==> t.frame == s.frame && t.node == s.node + 1
  {
    var node := NextNode(s.node, nodeCount);
    NodeFrame(node, if node == 0 then (s.frame + 1) % numFrames else s.frame)
  }

  /** Node and frame after k presents. */
  function Presents(s: NodeFrame, k: nat, nodeCount: nat, numFrames: nat): (t: NodeFrame)
    requires nodeCount >= 1 && numFrames >= 1
    requires s.node < nodeCount && s.frame < numFrames
    ensures t.node < nodeCount && t.frame < numFrames
  {
    if k == 0 then s else PresentStep(Presents(s, k - 1, nodeCount, numFrames), nodeCount, numFrames)
  }

  /**
   * Starting on node 0, the first nodeCount-1 presents hand the frame to the
   * next node without changing the frame index.
   */
  lemma {:induction false} NodesShareTheFrame(frame: nat, k: nat, nodeCount: nat, numFrames: nat)
    requires nodeCount >= 1 && numFrames >= 1 && frame < numFrames
    requires k < nodeCount
    ensures Presents(NodeFrame(0, frame), k, nodeCount, numFrames) == NodeFrame(k, frame)
  {
    if k > 0 {
      NodesShareTheFrame(frame, k - 1, nodeCount, numFrames);
    }
  }

  /**
   * Starting on node 0, exactly nodeCount presents bring rendering back to
   * node 0 with the frame index advanced by one (modulo the frame count):
   * every node renders one frame per frame index.
   */
  lemma FrameAdvancesOncePerRound(frame: nat, nodeCount: nat, numFrames: nat)
    requires nodeCount >= 1 && numFrames >= 1 && frame < numFrames
    ensures Presents(NodeFrame(0, frame), nodeCount, nodeCount, numFrames) == NodeFrame(0, (frame + 1) % numFrames)
  {
    NodesShareTheFrame(frame, nodeCount - 1, nodeCount, numFrames);
  }

  /** The row of the clear-colour table Render reads: the active node index. */
  function ClearColorRowAsWritten(node: nat): nat
  {
    node
  }

  /** With three nodes, the third node's frame reads past the two-row clear-colour table. */
  lemma ClearColorRowOutOfTable()
    ensures var nodeCount := 3;
      NextNode(NextNode(0, nodeCount), nodeCount) == 2 && ClearColorRowAsWritten(2) >= CLEAR_COLORS
  {
  }

  /** The row with the table's two colours alternating between nodes. */
  function ClearColorRow(node: nat): (row: nat)
    ensures row < CLEAR_COLORS
    ensures node < CLEAR_COLORS ==> row == ClearColorRowAsWritten(node)
  {
    node % CLEAR_COLORS
  }

  /** The D3D12 and DXGI calls the sample makes, as far as pacing is concerned. */
  datatype SampleEvent =
    | Signaled(value: nat)                       // queue Signal on the shared fence
    | Waited(node: nat, value: nat)              // SetEventOnCompletion + blocking wait
    | FrameBegun(allocator: nat, backBuffer: nat)  // allocator and list reset, PRESENT -> RENDER_TARGET
    | Drawn(backBuffer: nat, clearColorRow: nat) // clears, state setting and the indexed draw
    | Presented(backBuffer: nat)                 // RENDER_TARGET -> PRESENT, close, execute, present
    | SwapChainResized(width: u32, height: u32)  // buffers, views, depth buffer and viewport rebuilt

  class FramePacing {
    var fenceValue: nat
    var fenceValues: seq<nat>
    var frameIndex: nat
    var activeNode: nat
    var clientWidth: u32
    var clientHeight: u32
    const nodeCount: nat
    const backBufferCount: nat
    const numFrames: nat
    ghost var log: seq<SampleEvent>

    ghost predicate Valid()
      reads this
    {
      nodeCount >= 1 &&
      BufferCounts(nodeCount) == Counts(backBufferCount, numFrames) &&
      |fenceValues| == backBufferCount &&
      frameIndex < numFrames && activeNode < nodeCount &&
      (forall i :: 0 <= i < |fenceValues| ==> fenceValues[i] <= fenceValue) &&
      clientWidth >= 1 && clientHeight >= 1
    }

    /** The counts derived from the node count; zeroed fence values; node 0, frame 0. */
    constructor (nodeCount: nat)
      requires nodeCount >= 1
      ensures Valid()
      ensures this.nodeCount == nodeCount
      ensures fenceValue == 0 && frameIndex == 0 && activeNode == 0
      ensures fenceValues == seq(backBufferCount, _ => 0)
      ensures clientWidth == INITIAL_CLIENT_WIDTH && clientHeight == INITIAL_CLIENT_HEIGHT
      ensures log == []
    {
      this.nodeCount := nodeCount;
      var counts := BufferCounts(nodeCount);
      backBufferCount := counts.backBufferCount;
      numFrames := counts.numFrames;
      fenceValue := 0;
      fenceValues := seq(counts.backBufferCount, _ => 0);
      frameIndex := 0;
      activeNode := 0;
      clientWidth := INITIAL_CLIENT_WIDTH;
      clientHeight := INITIAL_CLIENT_HEIGHT;
      log := [];
    }

    /** Increments the shared fence counter, signals it and returns the new value. */
    method Signal() returns (value: nat)
      requires Valid()
      modifies this`fenceValue, this`log
      ensures Valid()
      ensures value == old(fenceValue) + 1 && fenceValue == value
      ensures log == old(log) + [Signaled(value)]
    {
      fenceValue := fenceValue + 1;
      value := fenceValue;
      log := log + [Signaled(value)];
    }

    /**
     * Blocks iff the fence's completed value on the active node (`completed`)
     * is below `value`; otherwise returns at once.
     */
    method WaitForFenceValue(value: nat, completed: nat) returns (blocked: bool)
      modifies this`log
      ensures blocked <==> completed < value
      ensures log == old(log) + (if blocked then [Waited(activeNode, value)] else [])
    {
      blocked := completed < value;
      if blocked {
        log := log + [Waited(activeNode, value)];
      }
    }

    /** Signals once and waits for exactly the value just signalled. */
    method Flush(completed: nat) returns (value: nat)
      requires Valid()
      modifies this`fenceValue, this`log
      ensures Valid()
      ensures value == old(fenceValue) + 1 && fenceValue == value
      ensures log == old(log) + [Signaled(value)] + (if completed < value then [Waited(activeNode, value)] else [])
    {
      value := Signal();
      var _ := WaitForFenceValue(value, completed);
    }

    /**
     * Presents back buffer `backBuffer`, stores the signalled fence value for
     * it, switches to the next node (`nextNode`, which the affinity layer
     * chooses round robin) and advances the frame index when the rotation
     * is back at node 0.
     */
    method Present(backBuffer: nat, nextNode: nat)
      requires Valid()
      requires backBuffer < backBufferCount
      requires nextNode == NextNode(activeNode, nodeCount)
      modifies this`fenceValue, this`fenceValues, this`activeNode, this`frameIndex, this`log
      ensures Valid()
      ensures fenceValue == old(fenceValue) + 1
      ensures fenceValues == old(fenceValues)[backBuffer := fenceValue]
      ensures forall i :: 0 <= i < |old(fenceValues)| ==> old(fenceValues)[i] < fenceValues[backBuffer]
      ensures NodeFrame(activeNode, frameIndex) == PresentStep(NodeFrame(old(activeNode), old(frameIndex)), nodeCount, numFrames)
      ensures log == old(log) + [Presented(backBuffer), Signaled(fenceValue)]
    {
      log := log + [Presented(backBuffer)];
      var value := Signal();
      fenceValues := fenceValues[backBuffer := value];
      activeNode := nextNode;
      if activeNode == 0 {
        frameIndex := (frameIndex + 1) % numFrames;
      }
    }

    /**
     * Renders one frame into back buffer `backBuffer`: waits until the GPU
     * finished the last frame that used this back buffer (`completed` is the
     * fence's completed value on the active node), resets the allocator of
     * the current frame index, records the frame and presents it.
     */
    method Render(backBuffer: nat, completed: nat, nextNode: nat)
      requires Valid()
      requires backBuffer < backBufferCount
      requires nextNode == NextNode(activeNode, nodeCount)
      modifies this`fenceValue, this`fenceValues, this`activeNode, this`frameIndex, this`log
      ensures Valid()
      ensures fenceValues == old(fenceValues)[backBuffer := fenceValue] && fenceValue == old(fenceValue) + 1
      ensures NodeFrame(activeNode, frameIndex) == PresentStep(NodeFrame(old(activeNode), old(frameIndex)), nodeCount, numFrames)
      ensures log == old(log)
        + (if completed < old(fenceValues)[backBuffer] then [Waited(old(activeNode), old(fenceValues)[backBuffer])] else [])
        + [FrameBegun(old(frameIndex), backBuffer), Drawn(backBuffer, ClearColorRow(old(activeNode)))]
        + [Presented(backBuffer), Signaled(fenceValue)]
    {
      var _ := WaitForFenceValue(fenceValues[backBuffer], completed);
      log := log + [FrameBegun(frameIndex, backBuffer)];
      log := log + [Drawn(backBuffer, ClearColorRow(activeNode))];
      Present(backBuffer, nextNode);
    }

    /**
     * Clamps the requested size to at least 1x1; only when that differs from
     * the current size does it store it, flush the GPU (`completed` as in
     * Flush) and rebuild the size-dependent objects.
     */
    method Resize(width: u32, height: u32, completed: nat)
      requires Valid()
      modifies this`clientWidth, this`clientHeight, this`fenceValue, this`log
      ensures Valid()
      ensures clientWidth == (if width == 0 then 1 else width)
      ensures clientHeight == (if height == 0 then 1 else height)
      ensures clientWidth == old(clientWidth) && clientHeight == old(clientHeight) ==>
        fenceValue == old(fenceValue) && log == old(log)
      ensures clientWidth != old(clientWidth) || clientHeight != old(clientHeight) ==>
        fenceValue == old(fenceValue) + 1 &&
        log == old(log) + [Signaled(fenceValue)]
          + (if completed < fenceValue then [Waited(activeNode, fenceValue)] else [])
          + [SwapChainResized(clientWidth, clientHeight)]
    {
      var w: u32 := if width < 1 then 1 else width;
      var h: u32 := if height < 1 then 1 else height;
      if clientWidth != w || clientHeight != h {
        clientWidth := w;
        clientHeight := h;
        var _ := Flush(completed);
        log := log + [SwapChainResized(w, h)];
      }
    }
  }
}
