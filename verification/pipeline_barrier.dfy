/** PipelineBarrier: three ordered lists of memory, buffer and image barriers plus
    the stage masks and dependency flags of one `vkCmdPipelineBarrier` call.

    Barriers are values here; the lists hold them in the order they were added. */
module PipelineBarrier {
  import opened Vk

  /** One link of a barrier's extension chain (`VulkanInfo`); its payload is opaque. */
  datatype VulkanInfo = VulkanInfo(id: int, next: Option<VulkanInfo>)

  datatype MemoryBarrier = MemoryBarrier(
    next: Option<VulkanInfo>,
    srcAccessMask: u32,
    dstAccessMask: u32)

  datatype BufferMemoryBarrier = BufferMemoryBarrier(
    next: Option<VulkanInfo>,
    srcAccessMask: u32,
    dstAccessMask: u32,
    srcQueueFamilyIndex: u32,
    dstQueueFamilyIndex: u32,
    buffer: Option<int>,
    offset: u64,
    size: u64)

  /** `VkImageSubresourceRange` */
  datatype ImageSubresourceRange = ImageSubresourceRange(
    aspectMask: u32,
    baseMipLevel: u32,
    levelCount: u32,
    baseArrayLayer: u32,
    layerCount: u32)

  datatype ImageMemoryBarrier = ImageMemoryBarrier(
    next: Option<VulkanInfo>,
    srcAccessMask: u32,
    dstAccessMask: u32,
    oldLayout: int,
    newLayout: int,
    srcQueueFamilyIndex: u32,
    dstQueueFamilyIndex: u32,
    image: Option<int>,
    subresourceRange: ImageSubresourceRange)

  /** The argument of `add`: which overload is chosen by the barrier's kind. */
  datatype Barrier =
    | Memory(memoryBarrier: MemoryBarrier)
    | Buffer(bufferMemoryBarrier: BufferMemoryBarrier)
    | Image(imageMemoryBarrier: ImageMemoryBarrier)

  datatype PipelineBarrier = PipelineBarrier(
    srcStageMask: u32,
    dstStageMask: u32,
    dependencyFlags: u32,
    memoryBarriers: seq<MemoryBarrier>,
    bufferMemoryBarriers: seq<BufferMemoryBarrier>,
    imageMemoryBarriers: seq<ImageMemoryBarrier>)

  const ZERO_RANGE := ImageSubresourceRange(0, 0, 0, 0, 0)

  /** A default-initialised `MemoryBarrier`. */
  function DefaultMemoryBarrier(): (b: MemoryBarrier)
    ensures b.next.None?
    ensures b.srcAccessMask == 0 && b.dstAccessMask == 0
  {
    MemoryBarrier(None, 0, 0)
  }

  /** A default-initialised `BufferMemoryBarrier`: no queue-family transfer, no
      buffer, an empty range. */
  function DefaultBufferMemoryBarrier(): (b: BufferMemoryBarrier)
    ensures b.next.None? && b.buffer.None?
    ensures b.srcAccessMask == 0 && b.dstAccessMask == 0
    ensures b.srcQueueFamilyIndex == QUEUE_FAMILY_IGNORED && b.dstQueueFamilyIndex == QUEUE_FAMILY_IGNORED
    ensures b.offset == 0 && b.size == 0
  {
    BufferMemoryBarrier(None, 0, 0, QUEUE_FAMILY_IGNORED, QUEUE_FAMILY_IGNORED, None, 0, 0)
  }

  /** The `ImageMemoryBarrier` constructor: every argument lands in the field of the
      same name, and the extension chain starts empty. */
  function NewImageMemoryBarrier(srcAccessMask: u32, dstAccessMask: u32, oldLayout: int, newLayout: int,
                                 srcQueueFamilyIndex: u32, dstQueueFamilyIndex: u32, image: Option<int>,
                                 subresourceRange: ImageSubresourceRange): (b: ImageMemoryBarrier)
    ensures b.next.None?
    ensures b.srcAccessMask == srcAccessMask && b.dstAccessMask == dstAccessMask
    ensures b.oldLayout == oldLayout && b.newLayout == newLayout
    ensures b.srcQueueFamilyIndex == srcQueueFamilyIndex && b.dstQueueFamilyIndex == dstQueueFamilyIndex
    ensures b.image == image && b.subresourceRange == subresourceRange
  {
    ImageMemoryBarrier(None, srcAccessMask, dstAccessMask, oldLayout, newLayout,
                       srcQueueFamilyIndex, dstQueueFamilyIndex, image, subresourceRange)
  }

  /** The constructor called with all its default arguments. */
  function DefaultImageMemoryBarrier(): (b: ImageMemoryBarrier)
    ensures b.next.None? && b.image.None?
    ensures b.srcAccessMask == 0 && b.dstAccessMask == 0
    ensures b.oldLayout == IMAGE_LAYOUT_UNDEFINED && b.newLayout == IMAGE_LAYOUT_UNDEFINED
    ensures b.srcQueueFamilyIndex == QUEUE_FAMILY_IGNORED && b.dstQueueFamilyIndex == QUEUE_FAMILY_IGNORED
    ensures b.subresourceRange == ImageSubresourceRange(0, 0, 0, 0, 0)
  {
    NewImageMemoryBarrier(0, 0, IMAGE_LAYOUT_UNDEFINED, IMAGE_LAYOUT_UNDEFINED,
                          QUEUE_FAMILY_IGNORED, QUEUE_FAMILY_IGNORED, None, ZERO_RANGE)
  }

  /** Neither side of the barrier names a queue family: no ownership transfer. */
  predicate NoOwnershipTransfer(b: Barrier)
  {
    match b
    case Memory(_) => true
    case Buffer(bb) => bb.srcQueueFamilyIndex == QUEUE_FAMILY_IGNORED && bb.dstQueueFamilyIndex == QUEUE_FAMILY_IGNORED
    case Image(ib) => ib.srcQueueFamilyIndex == QUEUE_FAMILY_IGNORED && ib.dstQueueFamilyIndex == QUEUE_FAMILY_IGNORED
  }

  /** Default buffer and image barriers request no ownership transfer. */
  lemma DefaultsTransferNothing()
    ensures NoOwnershipTransfer(Buffer(DefaultBufferMemoryBarrier()))
    ensures NoOwnershipTransfer(Image(DefaultImageMemoryBarrier()))
  {
  }

  // ---------------------------------------------------------------------------
  // Adding barriers

  /** The three `add` overloads: append to the end of the barrier's own list. */
  function Add(pb: PipelineBarrier, b: Barrier): (r: PipelineBarrier)
    ensures r.srcStageMask == pb.srcStageMask && r.dstStageMask == pb.dstStageMask
    ensures r.dependencyFlags == pb.dependencyFlags
    ensures r.memoryBarriers == pb.memoryBarriers + MemoryOf([b])
    ensures r.bufferMemoryBarriers == pb.bufferMemoryBarriers + BufferOf([b])
    ensures r.imageMemoryBarriers == pb.imageMemoryBarriers + ImageOf([b])
  {
    match b
    case Memory(mb) => pb.(memoryBarriers := pb.memoryBarriers + [mb])
    case Buffer(bmb) => pb.(bufferMemoryBarriers := pb.bufferMemoryBarriers + [bmb])
    case Image(imb) => pb.(imageMemoryBarriers := pb.imageMemoryBarriers + [imb])
  }

  /** The memory barriers among `bs`, in order. */
  function MemoryOf(bs: seq<Barrier>): seq<MemoryBarrier>
  {
    if |bs| == 0 then []
    else (if bs[0].Memory? then [bs[0].memoryBarrier] else []) + MemoryOf(bs[1..])
  }

  function BufferOf(bs: seq<Barrier>): seq<BufferMemoryBarrier>
  {
    if |bs| == 0 then []
    else (if bs[0].Buffer? then [bs[0].bufferMemoryBarrier] else []) + BufferOf(bs[1..])
  }

  function ImageOf(bs: seq<Barrier>): seq<ImageMemoryBarrier>
  {
    if |bs| == 0 then []
    else (if bs[0].Image? then [bs[0].imageMemoryBarrier] else []) + ImageOf(bs[1..])
  }

  /** The templated constructor: masks and flags from the arguments, then one `add`. */
  function Create(srcStageMask: u32, dstStageMask: u32, dependencyFlags: u32, b: Barrier): (r: PipelineBarrier)
    ensures r.srcStageMask == srcStageMask && r.dstStageMask == dstStageMask
    ensures r.dependencyFlags == dependencyFlags
    ensures b.Memory? ==> r.memoryBarriers == [b.memoryBarrier] && r.bufferMemoryBarriers == [] && r.imageMemoryBarriers == []
    ensures b.Buffer? ==> r.bufferMemoryBarriers == [b.bufferMemoryBarrier] && r.memoryBarriers == [] && r.imageMemoryBarriers == []
    ensures b.Image? ==> r.imageMemoryBarriers == [b.imageMemoryBarrier] && r.memoryBarriers == [] && r.bufferMemoryBarriers == []
  {
    Add(PipelineBarrier(srcStageMask, dstStageMask, dependencyFlags, [], [], []), b)
  }

  /** `add` called on each of `bs` in turn. */
  function AddAll(pb: PipelineBarrier, bs: seq<Barrier>): PipelineBarrier
    decreases bs
  {
    if |bs| == 0 then pb else AddAll(Add(pb, bs[0]), bs[1..])
  }

  /** Adding a sequence of barriers grows each list by exactly the barriers of its
      kind, in the order they were added, and touches nothing else. */
  lemma {:induction false} AddAllKeepsOrder(pb: PipelineBarrier, bs: seq<Barrier>)
    ensures AddAll(pb, bs).memoryBarriers == pb.memoryBarriers + MemoryOf(bs)
    ensures AddAll(pb, bs).bufferMemoryBarriers == pb.bufferMemoryBarriers + BufferOf(bs)
    ensures AddAll(pb, bs).imageMemoryBarriers == pb.imageMemoryBarriers + ImageOf(bs)
    ensures AddAll(pb, bs).srcStageMask == pb.srcStageMask && AddAll(pb, bs).dstStageMask == pb.dstStageMask
    ensures AddAll(pb, bs).dependencyFlags == pb.dependencyFlags
    decreases bs
  {
    if |bs| > 0 {
      AddAllKeepsOrder(Add(pb, bs[0]), bs[1..]);
      assert MemoryOf(bs) == MemoryOf([bs[0]]) + MemoryOf(bs[1..]);
      assert BufferOf(bs) == BufferOf([bs[0]]) + BufferOf(bs[1..]);
      assert ImageOf(bs) == ImageOf([bs[0]]) + ImageOf(bs[1..]);
    }
  }

  /** Every added barrier lands in exactly one list: the lists grow by `|bs|` in all. */
  lemma {:induction false} EveryBarrierLandsOnce(bs: seq<Barrier>)
    ensures |MemoryOf(bs)| + |BufferOf(bs)| + |ImageOf(bs)| == |bs|
    decreases bs
  {
    if |bs| > 0 {
      EveryBarrierLandsOnce(bs[1..]);
    }
  }

  /** Starting from the constructor, each list is exactly the barriers of its kind
      in the order given (the constructor's own first), so the k-th barrier of a kind
      sits at index k. */
  lemma CreateThenAddKeepsOrder(srcStageMask: u32, dstStageMask: u32, dependencyFlags: u32, first: Barrier,
                                rest: seq<Barrier>)
    ensures var pb := AddAll(Create(srcStageMask, dstStageMask, dependencyFlags, first), rest);
      && pb.memoryBarriers == MemoryOf([first] + rest)
      && pb.bufferMemoryBarriers == BufferOf([first] + rest)
      && pb.imageMemoryBarriers == ImageOf([first] + rest)
      && pb.srcStageMask == srcStageMask && pb.dstStageMask == dstStageMask
      && pb.dependencyFlags == dependencyFlags
  {
    var empty := PipelineBarrier(srcStageMask, dstStageMask, dependencyFlags, [], [], []);
    var bs := [first] + rest;
    AddAllKeepsOrder(empty, bs);
    assert bs[0] == first;
    assert bs[1..] == rest;
    assert AddAll(empty, bs) == AddAll(Add(empty, first), rest);
  }
}
