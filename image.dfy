/** Device images (`Image`): the format, usage and memory table per image
    type, the creation parameters, and the two `transitionLayout` overloads
    and `copyBuffer`, which go through the device's command buffers. */
module Images {
  import opened Wrappers
  import opened Vulkan
  import PD = PhysicalDevices
  import Devices

  datatype ImageType = Depth | TextureImage | RTOutputImage

  /** The depth formats tried, best first. */
  const DEPTH_CANDIDATES: seq<Format> := [D32Sfloat, D32SfloatS8Uint, D24UnormS8Uint]

  /** The usage flags of each image type. */
  function ImageUsage(t: ImageType): (usage: set<ImageUsage>)
    ensures DepthStencilAttachment in usage <==> t == Depth
    ensures ImageTransferDst in usage <==> t != Depth
    ensures Sampled in usage <==> t == TextureImage
    ensures Storage in usage <==> t == RTOutputImage
    ensures ImageTransferSrc in usage <==> t == RTOutputImage
    ensures ColorAttachment !in usage
  {
    match t
    case Depth => {DepthStencilAttachment}
    case TextureImage => {ImageTransferDst, Sampled}
    case RTOutputImage => {Storage, ImageTransferSrc, ImageTransferDst}
  }

  /** Every image type lives in device-local memory. */
  const IMAGE_MEMORY_PROPERTIES: set<MemoryProperty> := {DeviceLocal}

  /** The format of each image type: fixed colour formats, or for depth the
      first candidate the adapter supports as an optimally tiled depth
      attachment. */
  function ImageFormat(info: PD.DeviceInfo, t: ImageType): (r: Result<Format>)
    ensures t == TextureImage ==> r == Ok(R8G8B8A8Srgb)
    ensures t == RTOutputImage ==> r == Ok(B8G8R8A8Unorm)
    ensures t == Depth && r.Ok? ==>
              r.value in DEPTH_CANDIDATES
              && DepthStencilAttachmentFeature in PD.FormatPropertiesOf(info, r.value).optimalTilingFeatures
    ensures t == Depth ==>
              (r.Err? <==> forall k :: 0 <= k < |DEPTH_CANDIDATES| ==>
                 DepthStencilAttachmentFeature !in PD.FormatPropertiesOf(info, DEPTH_CANDIDATES[k]).optimalTilingFeatures)
  {
    match t
    case Depth => PD.FindSupportedFormat(info, DEPTH_CANDIDATES, Optimal, {DepthStencilAttachmentFeature})
    case TextureImage => Ok(R8G8B8A8Srgb)
    case RTOutputImage => Ok(B8G8R8A8Unorm)
  }

  /** The fields of `VkImageCreateInfo` the engine sets. */
  datatype ImageCreateInfo = ImageCreateInfo(
    extent: Extent3D,
    mipLevels: nat,
    arrayLayers: nat,
    format: Format,
    tiling: ImageTiling,
    initialLayout: ImageLayout,
    usage: set<ImageUsage>,
    samples: nat,
    sharing: SharingMode)

  /** What the driver answers while an image is created. */
  datatype ImageDriver = ImageDriver(createResult: VkResult, memoryTypeBits: U32, allocateResult: VkResult)

  class Image {
    const device: Devices.Device
    const imageType: ImageType
    const image: Handle
    const memory: Handle
    const format: Format
    const createInfo: ImageCreateInfo
    const memoryTypeIndex: nat

    ghost predicate Valid()
      reads this
    {
      image != 0 && memory != 0 && image != memory
      && createInfo.format == format
      && memoryTypeIndex < |device.physical.memoryTypes|
      && IMAGE_MEMORY_PROPERTIES <= device.physical.memoryTypes[memoryTypeIndex].propertyFlags
    }

    constructor (device: Devices.Device, imageType: ImageType, image: Handle, memory: Handle,
                 format: Format, createInfo: ImageCreateInfo, memoryTypeIndex: nat)
      ensures this.device == device && this.imageType == imageType && this.image == image
      ensures this.memory == memory && this.format == format && this.createInfo == createInfo
      ensures this.memoryTypeIndex == memoryTypeIndex
    {
      this.device := device;
      this.imageType := imageType;
      this.image := image;
      this.memory := memory;
      this.format := format;
      this.createInfo := createInfo;
      this.memoryTypeIndex := memoryTypeIndex;
    }

    /** `createImageView`: a view of this image in its own format. */
    function CreateImageView(aspect: ImageAspect, result: VkResult): (r: Result<ImageView>)
      ensures r.Ok? <==> result == Success
      ensures r.Ok? ==> r.value == ImageView(image, format, SingleRange(aspect))
    {
      Devices.CreateImageView(image, format, aspect, result)
    }

    /** The overload with a command buffer: records the device table's
        barrier for this image. */
    method TransitionLayout(oldLayout: ImageLayout, newLayout: ImageLayout, commandBuffer: Handle, raytracing: bool)
      returns (r: Result<()>)
      requires commandBuffer in device.recording
      modifies device
      ensures r.Ok? <==> (oldLayout, newLayout) in Devices.AcceptedTransitions(raytracing)
      ensures r.Err? ==> r.error == Devices.TransitionError(raytracing) && device.recording == old(device.recording)
      ensures r.Ok? ==> device.recording == old(device.recording)[commandBuffer := old(device.recording)[commandBuffer]
                          + [Devices.TransitionBarrier(image, oldLayout, newLayout, raytracing).value]]
      ensures device.nextHandle == old(device.nextHandle) && device.executed == old(device.executed)
      ensures device.calls == old(device.calls)
    {
      r := device.TransitionImageLayout(image, oldLayout, newLayout, commandBuffer, raytracing);
    }

    /** The overload without a command buffer: the same barrier in its own
        one-shot command buffer, executed before it returns. When the pair is
        rejected the exception leaves the begun command buffer behind, never
        submitted. */
    method TransitionLayoutNow(oldLayout: ImageLayout, newLayout: ImageLayout, raytracing: bool) returns (r: Result<()>)
      requires device.Valid()
      modifies device
      ensures device.Valid()
      ensures r.Ok? <==> (oldLayout, newLayout) in Devices.AcceptedTransitions(raytracing)
      ensures r.Err? ==> r.error == Devices.TransitionError(raytracing)
      ensures device.nextHandle == old(device.nextHandle) + 1
      ensures var cb := old(device.nextHandle);
              r.Err? ==> device.executed == old(device.executed)
                         && device.recording == old(device.recording)[cb := []]
                         && device.calls == old(device.calls) + [AllocateCommandBuffer(cb), BeginCommandBuffer(cb, true)]
      ensures var cb := old(device.nextHandle);
              r.Ok? ==> device.executed == old(device.executed) + [Devices.TransitionBarrier(image, oldLayout, newLayout, raytracing).value]
                        && device.recording == old(device.recording)
                        && device.calls == old(device.calls) + Devices.OneShotCalls(device.graphicsQueue, cb)
    {
      var commandBuffer := device.BeginSingleTimeCommands();
      r := TransitionLayout(oldLayout, newLayout, commandBuffer, raytracing);
      if r.Err? {
        return;
      }
      device.EndSingleTimeCommands(commandBuffer);
      assert device.recording == old(device.recording);
    }

    /** `copyBuffer`: a one-shot copy of tightly packed texels from the start
        of `buffer` into the whole first layer, with this image in
        TRANSFER_DST layout. */
    method CopyBuffer(buffer: Handle, width: U32, height: U32)
      requires device.Valid()
      modifies device
      ensures device.Valid()
      ensures device.executed == old(device.executed)
                + [CopyBufferToImage(buffer, image, TransferDstOptimal,
                     BufferImageCopy(0, 0, 0, COLOR_LAYERS, Extent3D(width, height, 1)))]
      ensures device.recording == old(device.recording)
      ensures device.nextHandle == old(device.nextHandle) + 1
      ensures device.calls == old(device.calls) + Devices.OneShotCalls(device.graphicsQueue, old(device.nextHandle))
    {
      var region := BufferImageCopy(0, 0, 0, COLOR_LAYERS, Extent3D(width, height, 1));
      device.RunOneShot(CopyBufferToImage(buffer, image, TransferDstOptimal, region));
    }

    /** The destructor: destroys the image, then frees its memory. */
    method Destroy()
      modifies device
      ensures device.calls == old(device.calls) + [DestroyImage(image), FreeMemory(memory)]
      ensures device.nextHandle == old(device.nextHandle) && device.recording == old(device.recording)
      ensures device.executed == old(device.executed)
    {
      device.Log(DestroyImage(image));
      device.Log(FreeMemory(memory));
    }
  }

  /** `Image::Image`: picks the format (which may fail for depth), creates a
      2D single-sample image of one mip level and one layer in UNDEFINED
      layout, and allocates and binds device-local memory for it. */
  method NewImage(device: Devices.Device, width: U32, height: U32, t: ImageType, driver: ImageDriver)
    returns (r: Result<Image>)
    requires device.Valid()
    modifies device
    ensures device.Valid()
    ensures device.recording == old(device.recording) && device.executed == old(device.executed)
    ensures device.calls == old(device.calls)
    ensures ImageFormat(device.physical, t).Err? ==> r == Err(ImageFormat(device.physical, t).error)
    ensures ImageFormat(device.physical, t).Ok? && driver.createResult != Success ==> r == Err(RuntimeError("failed to create image!"))
    ensures r.Ok? <==> ImageFormat(device.physical, t).Ok? && driver.createResult == Success
                       && PD.FindMemoryType(device.physical.memoryTypes, driver.memoryTypeBits, IMAGE_MEMORY_PROPERTIES).Ok?
                       && driver.allocateResult == Success
    ensures r.Ok? ==> fresh(r.value) && r.value.Valid() && r.value.device == device && r.value.imageType == t
    ensures r.Ok? ==> r.value.format == ImageFormat(device.physical, t).value
    ensures r.Ok? ==> r.value.createInfo == ImageCreateInfo(Extent3D(width, height, 1), 1, 1, r.value.format, Optimal,
                                                            Undefined, ImageUsage(t), 1, Exclusive)
    ensures r.Ok? ==> r.value.memoryTypeIndex
                      == PD.FindMemoryType(device.physical.memoryTypes, driver.memoryTypeBits, IMAGE_MEMORY_PROPERTIES).value
    ensures r.Ok? ==> r.value.image == old(device.nextHandle) && r.value.memory == old(device.nextHandle) + 1
                      && device.nextHandle == old(device.nextHandle) + 2
  {
    var format :- ImageFormat(device.physical, t);
    var info := ImageCreateInfo(Extent3D(width, height, 1), 1, 1, format, Optimal, Undefined, ImageUsage(t), 1, Exclusive);
    if driver.createResult != Success {
      return Err(RuntimeError("failed to create image!"));
    }
    var image := device.NewHandle();
    var memoryType :- PD.FindMemoryType(device.physical.memoryTypes, driver.memoryTypeBits, IMAGE_MEMORY_PROPERTIES);
    if driver.allocateResult != Success {
      return Err(RuntimeError("failed to allocate image memory!"));
    }
    var memory := device.NewHandle();
    var created := new Image(device, t, image, memory, format, info, memoryType);
    r := Ok(created);
  }
}
