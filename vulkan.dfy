/** The Vulkan vocabulary the engine uses: enumerations, flag masks (as sets
    of flag bits), plain structures, the commands recorded into command
    buffers, and the host-side calls the engine makes. Every Vulkan object
    is an opaque handle. */
module Vulkan {
  import opened Wrappers

  const TWO_32: nat := 0x1_0000_0000
  /** `std::numeric_limits<uint32_t>::max()`, the value of
      `currentExtent.width` that lets the application pick the extent */
  const UINT32_MAX: nat := 0xFFFF_FFFF

  type U32 = x: nat | x < TWO_32

  const TWO_64: nat := 0x1_0000_0000_0000_0000

  /** `uint64_t`, e.g. `VkDeviceAddress` */
  type U64 = x: nat | x < TWO_64

  /** `uint8_t`, one byte of host or device memory */
  type Byte = x: nat | x < 256

  /** `static_cast<uint32_t>`: reduction modulo 2^32 (negative values wrap) */
  function ToU32(x: int): (r: U32)
    ensures 0 <= x < TWO_32 ==> r == x
    ensures 0 <= x ==> r <= x
    ensures (x - r) % TWO_32 == 0
  {
    x % TWO_32
  }

  function Pow2(n: nat): (r: nat)
    ensures r > 0
  {
    if n == 0 then 1 else 2 * Pow2(n - 1)
  }

  /** `(mask & (1 << i)) != 0` */
  predicate BitSet(mask: nat, i: nat) {
    (mask / Pow2(i)) % 2 == 1
  }

  /** Object handles; 0 is `VK_NULL_HANDLE`. */
  type Handle = nat

  datatype Extent2D = Extent2D(width: U32, height: U32)
  datatype Extent3D = Extent3D(width: U32, height: U32, depth: U32)

  datatype Format =
    | B8G8R8A8Srgb
    | B8G8R8A8Unorm
    | R8G8B8A8Srgb
    | D32Sfloat
    | D32SfloatS8Uint
    | D24UnormS8Uint
    | R32G32B32Sfloat
    | OtherFormat(formatCode: nat)

  datatype ColorSpace = SrgbNonlinear | OtherColorSpace(colorSpaceCode: nat)

  datatype SurfaceFormat = SurfaceFormat(format: Format, colorSpace: ColorSpace)

  datatype PresentMode = Immediate | Mailbox | Fifo | FifoRelaxed | OtherPresentMode(presentModeCode: nat)

  datatype SurfaceCapabilities = SurfaceCapabilities(
    minImageCount: U32,
    maxImageCount: U32,
    currentExtent: Extent2D,
    minImageExtent: Extent2D,
    maxImageExtent: Extent2D,
    currentTransform: nat)

  datatype ImageLayout =
    | Undefined
    | General
    | TransferSrcOptimal
    | TransferDstOptimal
    | ShaderReadOnlyOptimal
    | PresentSrc
    | OtherLayout(layoutCode: nat)

  datatype ImageTiling = Optimal | Linear | OtherTiling(tilingCode: nat)

  datatype ImageAspect = ColorAspect | DepthAspect

  datatype FormatFeature =
    | DepthStencilAttachmentFeature
    | SampledImageFeature
    | StorageImageFeature
    | OtherFeature(featureCode: nat)

  datatype FormatProperties = FormatProperties(
    linearTilingFeatures: set<FormatFeature>,
    optimalTilingFeatures: set<FormatFeature>)

  datatype MemoryProperty = DeviceLocal | HostVisible | HostCoherent | HostCached | LazilyAllocated

  datatype MemoryType = MemoryType(propertyFlags: set<MemoryProperty>, heapIndex: nat)

  datatype BufferUsage =
    | TransferSrc
    | TransferDst
    | UniformBuffer
    | StorageBuffer
    | IndexBuffer
    | VertexBuffer
    | ShaderDeviceAddress
    | AccelerationStructureBuildInput
    | AccelerationStructureStorage
    | ShaderBindingTable

  datatype ImageUsage =
    | ImageTransferSrc
    | ImageTransferDst
    | Sampled
    | Storage
    | ColorAttachment
    | DepthStencilAttachment

  datatype Access = TransferRead | TransferWrite | ShaderRead

  datatype PipelineStage = TopOfPipe | TransferStage | FragmentShaderStage | ColorAttachmentOutput | AllCommands

  datatype ShaderStage = Raygen | Miss | ClosestHit

  datatype VkResult = Success | Suboptimal | ErrorOutOfDate | OtherError(errorCode: int)

  datatype Queue = Queue(family: nat, queueIndex: nat)

  datatype SharingMode = Exclusive | Concurrent(queueFamilies: seq<nat>)

  /** The fields of `VkSwapchainCreateInfoKHR` the engine sets. */
  datatype SwapchainCreateInfo = SwapchainCreateInfo(
    minImageCount: U32,
    imageFormat: Format,
    imageColorSpace: ColorSpace,
    imageExtent: Extent2D,
    imageArrayLayers: nat,
    imageUsage: set<ImageUsage>,
    sharing: SharingMode,
    preTransform: nat,
    compositeAlphaOpaque: bool,
    presentMode: PresentMode,
    clipped: bool)

  datatype SubresourceRange = SubresourceRange(
    aspect: ImageAspect, baseMipLevel: nat, levelCount: nat, baseArrayLayer: nat, layerCount: nat)

  datatype SubresourceLayers = SubresourceLayers(
    layersAspect: ImageAspect, mipLevel: nat, firstLayer: nat, layers: nat)

  /** One mip level, one array layer. */
  function SingleRange(aspect: ImageAspect): SubresourceRange {
    SubresourceRange(aspect, 0, 1, 0, 1)
  }

  const COLOR_LAYERS: SubresourceLayers := SubresourceLayers(ColorAspect, 0, 0, 1)

  /** A 2D image view, described by what it views; `Device::createImageView`
      always uses `VK_IMAGE_VIEW_TYPE_2D`. */
  datatype ImageView = ImageView(image: Handle, format: Format, range: SubresourceRange)

  datatype Framebuffer = Framebuffer(
    renderPass: Handle, attachments: seq<ImageView>, width: U32, height: U32, layers: nat)

  /** `VkImageMemoryBarrier`; both queue family indices are
      `VK_QUEUE_FAMILY_IGNORED` (no ownership transfer). */
  datatype ImageMemoryBarrier = ImageMemoryBarrier(
    oldLayout: ImageLayout,
    newLayout: ImageLayout,
    srcAccess: set<Access>,
    dstAccess: set<Access>,
    subresource: SubresourceRange)

  /** `VkImageCopy`; both offsets are zero. */
  datatype ImageCopy = ImageCopy(srcSubresource: SubresourceLayers, dstSubresource: SubresourceLayers, extent: Extent3D)

  datatype BufferCopy = BufferCopy(srcOffset: nat, dstOffset: nat, size: nat)

  /** `VkBufferImageCopy`; the image offset is (0, 0, 0). */
  datatype BufferImageCopy = BufferImageCopy(
    bufferOffset: nat, bufferRowLength: nat, bufferImageHeight: nat,
    imageSubresource: SubresourceLayers, imageExtent: Extent3D)

  /** `VkStridedDeviceAddressRegionKHR` */
  datatype StridedRegion = StridedRegion(deviceAddress: nat, stride: nat, size: nat)

  const EMPTY_REGION: StridedRegion := StridedRegion(0, 0, 0)

  datatype DescriptorType =
    | AccelerationStructureDescriptor
    | StorageImageDescriptor
    | StorageBufferDescriptor
    | UniformBufferDescriptor

  /** What a descriptor write points at; a buffer range of `None` is
      `VK_WHOLE_SIZE`. */
  datatype DescriptorResource =
    | StructureResource(structure: Handle)
    | ImageResource(view: ImageView, imageLayout: ImageLayout)
    | BufferResource(resourceBuffer: Handle, range: Option<nat>)

  /** `VkWriteDescriptorSet` for one descriptor at array element 0. */
  datatype DescriptorWrite = DescriptorWrite(
    dstSet: Handle, dstBinding: nat, descriptorType: DescriptorType, descriptorCount: nat, resource: DescriptorResource)

  datatype AccelerationStructureKind = BottomLevel | TopLevel

  /** The one geometry an acceleration structure is built from: indexed
      triangles read through device addresses, or an array of instances. */
  datatype Geometry =
    | Triangles(vertexFormat: Format, vertexAddress: nat, vertexStride: nat, indexAddress: nat, maxVertex: U32)
    | Instances(instancesAddress: nat, arrayOfPointers: bool)

  /** Commands recorded into a command buffer. */
  datatype Command =
    | PipelineBarrier(image: Handle, srcStage: PipelineStage, dstStage: PipelineStage, barrier: ImageMemoryBarrier)
    | CopyImage(srcImage: Handle, srcLayout: ImageLayout, dstImage: Handle, dstLayout: ImageLayout, imageCopy: ImageCopy)
    | CopyBuffer(srcBuffer: Handle, dstBuffer: Handle, bufferCopy: BufferCopy)
    | CopyBufferToImage(buffer: Handle, targetImage: Handle, targetLayout: ImageLayout, bufferImageCopy: BufferImageCopy)
    | BindRayTracingPipeline(pipeline: Handle)
    | BindRayTracingDescriptorSet(pipelineLayout: Handle, descriptorSet: Handle)
    | PushConstants(pushLayout: Handle, stage: ShaderStage, offset: nat, size: nat, pushed: U32)
      /** `storageImage` is the image bound at binding 1 of the descriptor
          set, which the ray-generation shader writes in the GENERAL layout. */
    | TraceRays(raygen: StridedRegion, miss: StridedRegion, hit: StridedRegion, callable: StridedRegion,
                width: nat, height: nat, depth: nat, storageImage: Handle)
    | BuildAccelerationStructure(structure: Handle, kind: AccelerationStructureKind, geometry: Geometry,
                                 primitiveCount: U32, scratchAddress: nat)
      /** Everything `Rasterizer::recordCommandBuffer` records (its source is
          not part of this model). */
    | RasterizerPass(frameSlot: nat, imageIndex: U32)

  /** Host-side calls into the driver and the window system, in the order
      the engine makes them. */
  datatype Call =
    | WaitForFence(waitFence: Handle)
    | AcquireNextImage(acquireSwapchain: Handle, acquireSemaphore: Handle)
    | ResetFence(resetFence: Handle)
    | ResetCommandBuffer(resetBuffer: Handle)
    | AllocateCommandBuffer(allocatedBuffer: Handle)
    | BeginCommandBuffer(begun: Handle, oneTimeSubmit: bool)
    | EndCommandBuffer(ended: Handle)
    | QueueSubmit(submitQueue: Queue, submitted: Handle, waitSemaphore: Option<Handle>, signalSemaphore: Option<Handle>, fence: Handle)
    | QueuePresent(presentQueue: Queue, presentSwapchain: Handle, presentImage: U32, presentWait: Handle)
    | QueueWaitIdle(idleQueue: Queue)
    | FreeCommandBuffer(freed: Handle)
    | DeviceWaitIdle
    | UpdateUniforms(uniformSlot: nat)
    | GetFramebufferSize
    | WaitEvents
    | CreateSwapchain(createInfo: SwapchainCreateInfo)
    | RefreshRasterizer
    | CreateRasterizerDescriptorSets
    | DestroyImageView(view: ImageView)
    | DestroyFramebuffer(framebuffer: Framebuffer)
    | DestroySwapchain(swapchain: Handle)
    | FreeMemory(memory: Handle)
    | DestroyImage(destroyedImage: Handle)
    | DestroyAccelerationStructure(destroyedStructure: Handle)
    | UpdateDescriptorSets(writes: seq<DescriptorWrite>)
}
