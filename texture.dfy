/** Textures (`Texture`): upload of a decoded RGBA image through a staging
    buffer into a sampled device image, and the layout sequence around the
    copy. */
module Textures {
  import opened Wrappers
  import opened Vulkan
  import Devices
  import Buffers
  import Images
  import LayoutProtocol

  /** A decoded image as the image loader returns it: four bytes per texel,
      row after row. The loader refuses images whose byte count does not fit
      a C `int`, so `width * height * 4 < 2^31` holds for every image it
      returns. */
  datatype LoadedImage = LoadedImage(width: U32, height: U32, pixels: seq<Byte>)

  const INT_LIMIT: nat := 0x8000_0000

  ghost predicate WellFormed(img: LoadedImage) {
    |img.pixels| == img.width * img.height * 4 && img.width * img.height * 4 < INT_LIMIT
  }

  /** The staging size: four bytes per texel. */
  function StagingSize(img: LoadedImage): (size: nat)
    requires WellFormed(img)
    ensures size == |img.pixels| && size < INT_LIMIT
  {
    img.width * img.height * 4
  }

  /** The commands an upload puts on the GPU timeline: into TRANSFER_DST
      (discarding whatever the image held), the copy from staging, and into
      SHADER_READ_ONLY for sampling. */
  function UploadCommands(image: Handle, staging: Handle, width: U32, height: U32): (commands: seq<Command>)
    ensures |commands| == 3
  {
    [Devices.TransitionBarrier(image, Undefined, TransferDstOptimal, false).value,
     CopyBufferToImage(staging, image, TransferDstOptimal, BufferImageCopy(0, 0, 0, COLOR_LAYERS, Extent3D(width, height, 1))),
     Devices.TransitionBarrier(image, TransferDstOptimal, ShaderReadOnlyOptimal, false).value]
  }

  /** Whatever layout the image was in, the upload follows the layout
      protocol and leaves the image, and only it, in SHADER_READ_ONLY. */
  lemma UploadConforms(layouts: LayoutProtocol.Layouts, image: Handle, staging: Handle, width: U32, height: U32)
    ensures LayoutProtocol.Run(layouts, UploadCommands(image, staging, width, height))
            == Some(layouts[image := ShaderReadOnlyOptimal])
  {
    var commands := UploadCommands(image, staging, width, height);
    var afterFirst := layouts[image := TransferDstOptimal];
    var last := layouts[image := ShaderReadOnlyOptimal];
    assert LayoutProtocol.Step(layouts, commands[0]) == Some(afterFirst);
    assert LayoutProtocol.Step(afterFirst, commands[1]) == Some(afterFirst);
    assert afterFirst[image := ShaderReadOnlyOptimal] == last;
    assert LayoutProtocol.Step(afterFirst, commands[2]) == Some(last);
    assert LayoutProtocol.Run(last, commands[1..][1..][1..]) == Some(last);
    assert LayoutProtocol.Run(afterFirst, commands[1..][1..]) == Some(last);
    assert LayoutProtocol.Run(afterFirst, commands[1..]) == Some(last);
  }

  /** Appended to a timeline that conforms, the upload keeps it conforming. */
  lemma UploadAfterConforms(start: LayoutProtocol.Layouts, before: seq<Command>, image: Handle, staging: Handle, width: U32, height: U32)
    requires LayoutProtocol.Run(start, before).Some?
    ensures LayoutProtocol.Run(start, before + UploadCommands(image, staging, width, height))
            == Some(LayoutProtocol.Run(start, before).value[image := ShaderReadOnlyOptimal])
  {
    LayoutProtocol.RunAppend(start, before, UploadCommands(image, staging, width, height));
    UploadConforms(LayoutProtocol.Run(start, before).value, image, staging, width, height);
  }

  class Texture {
    const device: Devices.Device
    const image: Images.Image
    const imageView: ImageView

    constructor (device: Devices.Device, image: Images.Image, imageView: ImageView)
      ensures this.device == device && this.image == image && this.imageView == imageView
    {
      this.device := device;
      this.image := image;
      this.imageView := imageView;
    }

    /** The destructor destroys the view; the image, held only by the
        texture, is destroyed with it. */
    method Destroy()
      requires image.device == device
      modifies device
      ensures device.calls == old(device.calls) + [DestroyImageView(imageView), DestroyImage(image.image), FreeMemory(image.memory)]
      ensures device.nextHandle == old(device.nextHandle) && device.recording == old(device.recording)
      ensures device.executed == old(device.executed)
    {
      device.Log(DestroyImageView(imageView));
      image.Destroy();
    }
  }

  /** The start of the constructor: a staging buffer of exactly the pixels'
      size, written through a mapping. */
  method StagePixels(device: Devices.Device, img: LoadedImage, stagingDriver: Buffers.BufferDriver)
    returns (r: Result<Buffers.Buffer>)
    requires device.Valid() && WellFormed(img) && stagingDriver.address != 0
    modifies device
    ensures device.Valid()
    ensures device.executed == old(device.executed) && device.recording == old(device.recording)
    ensures r.Ok? ==> fresh(r.value) && r.value.bufferType == Buffers.Staging && r.value.contents == img.pixels
                      && r.value.buffer == old(device.nextHandle) && device.nextHandle == old(device.nextHandle) + 2
                      && device.calls == old(device.calls)
  {
    var staging :- Buffers.NewBuffer(device, Buffers.Staging, StagingSize(img), None, stagingDriver);
    staging.WriteMapped(img.pixels);
    r := Ok(staging);
  }

  /** The end of the constructor, once the image exists: the upload, then
      the view; if the view cannot be created the image is destroyed as the
      exception unwinds. */
  method FinishTexture(image: Images.Image, staging: Handle, width: U32, height: U32, viewResult: VkResult)
    returns (r: Result<Texture>)
    requires image.device.Valid()
    modifies image.device
    ensures image.device.Valid()
    ensures image.device.recording == old(image.device.recording)
    ensures image.device.executed == old(image.device.executed) + UploadCommands(image.image, staging, width, height)
    ensures r.Ok? ==> fresh(r.value) && r.value.image == image && r.value.device == image.device
                      && r.value.imageView == ImageView(image.image, image.format, SingleRange(ColorAspect))
    ensures r.Ok? ==> image.device.calls == old(image.device.calls)
                        + Devices.OneShotCalls(image.device.graphicsQueue, old(image.device.nextHandle))
                        + Devices.OneShotCalls(image.device.graphicsQueue, old(image.device.nextHandle) + 1)
                        + Devices.OneShotCalls(image.device.graphicsQueue, old(image.device.nextHandle) + 2)
  {
    UploadPixels(image, staging, width, height);
    var view := image.CreateImageView(ColorAspect, viewResult);
    if view.Err? {
      image.Destroy();
      return Err(view.error);
    }
    var texture := new Texture(image.device, image, view.value);
    r := Ok(texture);
  }

  /** The middle of the constructor: into TRANSFER_DST, the copy from the
      staging buffer, into SHADER_READ_ONLY, each in its own one-shot
      command buffer. */
  method UploadPixels(image: Images.Image, staging: Handle, width: U32, height: U32)
    requires image.device.Valid()
    modifies image.device
    ensures image.device.Valid()
    ensures image.device.recording == old(image.device.recording)
    ensures image.device.nextHandle == old(image.device.nextHandle) + 3
    ensures image.device.executed == old(image.device.executed) + UploadCommands(image.image, staging, width, height)
    ensures image.device.calls == old(image.device.calls)
              + Devices.OneShotCalls(image.device.graphicsQueue, old(image.device.nextHandle))
              + Devices.OneShotCalls(image.device.graphicsQueue, old(image.device.nextHandle) + 1)
              + Devices.OneShotCalls(image.device.graphicsQueue, old(image.device.nextHandle) + 2)
  {
    // both edges are in the table, so neither transition throws
    var toTransfer := image.TransitionLayoutNow(Undefined, TransferDstOptimal, false);
    assert toTransfer.Ok?;
    image.CopyBuffer(staging, width, height);
    var toSampled := image.TransitionLayoutNow(TransferDstOptimal, ShaderReadOnlyOptimal, false);
    assert toSampled.Ok?;
  }

  /** `Texture::Texture`: fails before creating anything when the loader
      returned no pixels; otherwise writes the pixels into a staging buffer
      of exactly their size, creates the texture image, and uploads. If the
      view cannot be created the image, already a member, is destroyed as
      the exception unwinds. The staging buffer is never released. */
  method NewTexture(device: Devices.Device, loaded: Option<LoadedImage>, stagingDriver: Buffers.BufferDriver,
                    imageDriver: Images.ImageDriver, viewResult: VkResult)
    returns (r: Result<Texture>)
    requires device.Valid()
    requires loaded.Some? ==> WellFormed(loaded.value)
    requires stagingDriver.address != 0
    modifies device
    ensures device.Valid()
    ensures loaded.None? ==> r == Err(RuntimeError("failed to load texture image!"))
                             && device.nextHandle == old(device.nextHandle) && device.calls == old(device.calls)
                             && device.executed == old(device.executed) && device.recording == old(device.recording)
    ensures r.Ok? ==> loaded.Some? && fresh(r.value) && fresh(r.value.image)
    ensures r.Ok? ==> r.value.image.imageType == Images.TextureImage && r.value.image.format == R8G8B8A8Srgb
                      && r.value.image.createInfo.extent == Extent3D(loaded.value.width, loaded.value.height, 1)
    ensures r.Ok? ==> r.value.imageView == ImageView(r.value.image.image, R8G8B8A8Srgb, SingleRange(ColorAspect))
    ensures r.Ok? ==> device.recording == old(device.recording)
    ensures r.Ok? ==> var staging := old(device.nextHandle);
                      r.value.image.image == staging + 2
                      && device.executed == old(device.executed)
                           + UploadCommands(r.value.image.image, staging, loaded.value.width, loaded.value.height)
                      && device.calls == old(device.calls)
                           + Devices.OneShotCalls(device.graphicsQueue, staging + 4)
                           + Devices.OneShotCalls(device.graphicsQueue, staging + 5)
                           + Devices.OneShotCalls(device.graphicsQueue, staging + 6)
  {
    if loaded.None? {
      return Err(RuntimeError("failed to load texture image!"));
    }
    var img := loaded.value;
    var staging :- StagePixels(device, img, stagingDriver);
    var image :- Images.NewImage(device, img.width, img.height, Images.TextureImage, imageDriver);
    r := FinishTexture(image, staging.buffer, img.width, img.height, viewResult);
  }
}
