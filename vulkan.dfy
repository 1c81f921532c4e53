/**
 * The part of the Vulkan API the engine's core talks to.
 *
 * Handles are opaque tokens: 0 is VK_NULL_HANDLE and every object the
 * driver creates receives a fresh positive token.  Every call the engine
 * makes on the logical device is appended to the device's call log, so an
 * operation's effect on the GPU is stated as the calls it issues, in order.
 * The driver's answers to queries (memory properties, memory requirements
 * of a buffer) are fixed when the device is constructed.
 */
module Vulkan {

  /** A Vulkan handle; NULL_HANDLE is VK_NULL_HANDLE. */
  type Handle = nat
  const NULL_HANDLE: Handle := 0

  /** A handle the driver has handed out: never VK_NULL_HANDLE. */
  type LiveHandle = h: nat | h > 0 witness 1

  const UINT32_MAX: nat := 0xFFFF_FFFF
  /** 2^32: unsigned 32-bit arithmetic in the engine wraps modulo this value. */
  const UINT32_MODULUS: nat := 0x1_0000_0000

  /** A uint32_t value. */
  type Uint32 = x: nat | x < UINT32_MODULUS

  /** The value of a uint32_t after an implicit conversion from a wider integer. */
  function ToUint32(x: int): (r: nat)
    ensures r < UINT32_MODULUS
    ensures 0 <= x < UINT32_MODULUS ==> r == x
  {
    x % UINT32_MODULUS
  }

  type Byte = x: int | 0 <= x < 256

  /** The VkFormat values the engine names; any other format a driver offers is Other. */
  datatype Format =
    | Undefined
    | B8G8R8A8Unorm
    | R32G32Sfloat
    | R32G32B32Sfloat
    | D32Sfloat
    | D24UnormS8Uint
    | OtherFormat(code: nat)

  datatype ColorSpace = SrgbNonlinear | OtherColorSpace(code: nat)

  datatype PresentMode =
    | Immediate
    | Mailbox
    | Fifo
    | FifoRelaxed
    | SharedDemandRefresh
    | SharedContinuousRefresh

  datatype ImageTiling = Optimal | Linear | DrmFormatModifier

  datatype FormatFeature =
    | SampledImage
    | ColorAttachment
    | DepthStencilAttachment
    | BlitSrc
    | BlitDst
    | OtherFormatFeature(bit: nat)

  /** What the driver reports for one format: features per tiling mode. */
  datatype FormatProperties = FormatProperties(
    linearTilingFeatures: set<FormatFeature>,
    optimalTilingFeatures: set<FormatFeature>,
    bufferFeatures: set<FormatFeature>)

  datatype MemoryProperty = DeviceLocal | HostVisible | HostCoherent | HostCached | LazilyAllocated

  datatype MemoryType = MemoryType(propertyFlags: set<MemoryProperty>, heapIndex: nat)

  /** VK_MAX_MEMORY_TYPES: a device reports at most this many memory types. */
  const MAX_MEMORY_TYPES: nat := 32

  type MemoryTypeList = types: seq<MemoryType> | |types| <= MAX_MEMORY_TYPES

  /** VkPhysicalDeviceMemoryProperties: memoryTypeCount is |memoryTypes|. */
  datatype MemoryProperties = MemoryProperties(memoryTypes: MemoryTypeList)

  /** VkMemoryRequirements: memoryTypeBits has bit i set when memory type i may back the resource. */
  datatype MemoryRequirements = MemoryRequirements(size: nat, alignment: nat, memoryTypeBits: Uint32)

  datatype MemoryAllocateInfo = MemoryAllocateInfo(allocationSize: nat, memoryTypeIndex: nat)

  datatype BufferUsage = TransferSrc | TransferDst | UniformBuffer | VertexBuffer | IndexBuffer

  datatype SharingMode = Exclusive | Concurrent

  datatype BufferCreateInfo = BufferCreateInfo(
    size: nat,
    usage: set<BufferUsage>,
    sharingMode: SharingMode,
    queueFamilyIndices: seq<nat>)

  datatype ImageLayout =
    | LayoutUndefined
    | ColorAttachmentOptimal
    | DepthStencilAttachmentOptimal
    | TransferDstOptimal
    | ShaderReadOnlyOptimal
    | PresentSrc

  datatype ImageAspect = AspectColor | AspectDepth | AspectStencil

  datatype ImageViewType = View1D | View2D | View3D | ViewCube

  datatype ComponentSwizzle = SwizzleIdentity | SwizzleZero | SwizzleOne | SwizzleR | SwizzleG | SwizzleB | SwizzleA

  datatype ComponentMapping = ComponentMapping(r: ComponentSwizzle, g: ComponentSwizzle, b: ComponentSwizzle, a: ComponentSwizzle)

  datatype ImageSubresourceRange = ImageSubresourceRange(
    aspectMask: set<ImageAspect>,
    baseMipLevel: nat,
    levelCount: nat,
    baseArrayLayer: nat,
    layerCount: nat)

  datatype ImageViewCreateInfo = ImageViewCreateInfo(
    image: Handle,
    viewType: ImageViewType,
    format: Format,
    components: ComponentMapping,
    subresourceRange: ImageSubresourceRange)

  datatype BufferCopy = BufferCopy(srcOffset: nat, dstOffset: nat, size: nat)

  datatype ImageSubresourceLayers = ImageSubresourceLayers(
    aspectMask: set<ImageAspect>,
    mipLevel: nat,
    baseArrayLayer: nat,
    layerCount: nat)

  datatype Offset3D = Offset3D(x: int, y: int, z: int)
  datatype Extent3D = Extent3D(width: nat, height: nat, depth: nat)

  datatype BufferImageCopy = BufferImageCopy(
    bufferOffset: nat,
    bufferRowLength: nat,
    bufferImageHeight: nat,
    imageSubresource: ImageSubresourceLayers,
    imageOffset: Offset3D,
    imageExtent: Extent3D)

  datatype CommandBufferLevel = Primary | Secondary

  datatype CommandBufferUsage = OneTimeSubmit | RenderPassContinue | SimultaneousUse

  datatype CommandBufferAllocateInfo = CommandBufferAllocateInfo(
    commandPool: Handle,
    level: CommandBufferLevel,
    commandBufferCount: nat)

  datatype SubmitInfo = SubmitInfo(
    waitSemaphores: seq<Handle>,
    commandBuffers: seq<Handle>,
    signalSemaphores: seq<Handle>)

  /** Render pass description records (VkAttachmentDescription and friends). */
  datatype AttachmentLoadOp = LoadOpLoad | LoadOpClear | LoadOpDontCare
  datatype AttachmentStoreOp = StoreOpStore | StoreOpDontCare

  datatype AttachmentDescription = AttachmentDescription(
    format: Format,
    samples: nat,
    loadOp: AttachmentLoadOp,
    storeOp: AttachmentStoreOp,
    stencilLoadOp: AttachmentLoadOp,
    stencilStoreOp: AttachmentStoreOp,
    initialLayout: ImageLayout,
    finalLayout: ImageLayout)

  datatype AttachmentReference = AttachmentReference(attachment: nat, layout: ImageLayout)

  datatype PipelineBindPoint = BindGraphics | BindCompute

  datatype SubpassDescription = SubpassDescription(
    bindPoint: PipelineBindPoint,
    inputAttachments: seq<AttachmentReference>,
    colorAttachments: seq<AttachmentReference>,
    resolveAttachments: seq<AttachmentReference>,
    depthStencilAttachment: seq<AttachmentReference>)

  /** A subpass index in a dependency; External is VK_SUBPASS_EXTERNAL. */
  datatype SubpassRef = External | Subpass(index: nat)

  datatype PipelineStage = ColorAttachmentOutput | EarlyFragmentTests | Transfer
  datatype Access = ColorAttachmentRead | ColorAttachmentWrite | DepthStencilAttachmentWrite

  datatype SubpassDependency = SubpassDependency(
    srcSubpass: SubpassRef,
    dstSubpass: SubpassRef,
    srcStageMask: set<PipelineStage>,
    dstStageMask: set<PipelineStage>,
    srcAccessMask: set<Access>,
    dstAccessMask: set<Access>)

  datatype RenderPassCreateInfo = RenderPassCreateInfo(
    attachments: seq<AttachmentDescription>,
    subpasses: seq<SubpassDescription>,
    dependencies: seq<SubpassDependency>)

  /** One call on the logical device or one of its queues, as the engine issues it. */
  datatype DeviceCall =
    | CreateBuffer(buffer: Handle, bufferInfo: BufferCreateInfo)
    | DestroyBuffer(buffer: Handle)
    | AllocateMemory(memory: Handle, allocateInfo: MemoryAllocateInfo)
    | FreeMemory(memory: Handle)
    | BindBufferMemory(buffer: Handle, memory: Handle, memoryOffset: nat)
    | MapMemory(memory: Handle, offset: nat, size: nat)
    | UnmapMemory(memory: Handle)
    | AllocateCommandBuffers(commandBuffer: Handle, commandBufferInfo: CommandBufferAllocateInfo)
    | BeginCommandBuffer(commandBuffer: Handle, usage: set<CommandBufferUsage>)
    | CmdCopyBuffer(commandBuffer: Handle, srcBuffer: Handle, dstBuffer: Handle, copyRegion: BufferCopy)
    | CmdCopyBufferToImage(commandBuffer: Handle, srcBuffer: Handle, dstImage: Handle, dstLayout: ImageLayout, imageRegion: BufferImageCopy)
    | EndCommandBuffer(commandBuffer: Handle)
    | QueueSubmit(queue: Handle, submitInfo: SubmitInfo, fence: Handle)
    | QueueWaitIdle(queue: Handle)
    | FreeCommandBuffers(commandPool: Handle, commandBuffer: Handle)
    | CreateImageView(view: Handle, viewInfo: ImageViewCreateInfo)
    | DestroyImageView(view: Handle)
    | DestroyImage(image: Handle)
    | CreateRenderPass(renderPass: Handle, renderPassInfo: RenderPassCreateInfo)
    | DestroyRenderPass(renderPass: Handle)

  /**
   * The logical device as the engine sees it: the calls issued on it so
   * far, the next handle the driver will hand out, and the driver's fixed
   * answers to the queries the core makes.
   */
  class Device {
    var log: seq<DeviceCall>
    var nextHandle: LiveHandle
    /** vkGetPhysicalDeviceMemoryProperties of the selected physical device. */
    const memoryProperties: MemoryProperties
    /** vkGetBufferMemoryRequirements, by buffer handle. */
    const bufferRequirements: Handle -> MemoryRequirements

    constructor (memoryProperties: MemoryProperties, bufferRequirements: Handle -> MemoryRequirements)
      ensures log == []
      ensures this.memoryProperties == memoryProperties
      ensures this.bufferRequirements == bufferRequirements
    {
      log := [];
      nextHandle := 1;
      this.memoryProperties := memoryProperties;
      this.bufferRequirements := bufferRequirements;
    }

    /** The driver creates an object: a handle never handed out before. */
    method NewHandle() returns (h: LiveHandle)
      modifies this
      ensures h == old(nextHandle)
      ensures nextHandle == h + 1
      ensures log == old(log)
    {
      h := nextHandle;
      nextHandle := nextHandle + 1;
    }

    /** Issue one call. */
    method Issue(call: DeviceCall)
      modifies this
      ensures log == old(log) + [call]
      ensures nextHandle == old(nextHandle)
    {
      log := log + [call];
    }
  }
}
