/** The logical device (`Device`): queue creation, one-shot command buffers,
    image views, image copies and the image layout transition table.

    The `Device` object also carries the observable effects of the engine:
    `calls` is the host-side calls the model follows, in order (creating a
    driver object is not logged; it shows only as a fresh handle drawn from
    `nextHandle`), `recording` holds the commands recorded into each live command
    buffer, and `executed` is the GPU timeline, the commands of every
    submitted command buffer in submission order. */
module Devices {
  import opened Wrappers
  import opened Vulkan
  import PD = PhysicalDevices

  /** `VkDeviceQueueCreateInfo`; `priority` is `queuePriority`. */
  datatype QueueCreateInfo = QueueCreateInfo(queueFamilyIndex: nat, queueCount: nat, priority: real)

  /** The elements of `std::set<uint32_t>{graphics, present}` in the set's
      (ascending) iteration order. */
  function UniqueFamilies(graphicsFamily: nat, presentFamily: nat): (r: seq<nat>)
    ensures forall i, j :: 0 <= i < j < |r| ==> r[i] < r[j]
    ensures forall i :: 0 <= i < |r| ==> r[i] == graphicsFamily || r[i] == presentFamily
    ensures graphicsFamily in r && presentFamily in r
  {
    if graphicsFamily < presentFamily then [graphicsFamily, presentFamily]
    else if presentFamily < graphicsFamily then [presentFamily, graphicsFamily]
    else [graphicsFamily]
  }

  /** One queue-create record per distinct family, one queue each, at
      priority 1.0, in ascending family order. */
  method QueueCreateInfos(graphicsFamily: nat, presentFamily: nat) returns (infos: seq<QueueCreateInfo>)
    ensures |infos| == (if graphicsFamily == presentFamily then 1 else 2)
    ensures forall i :: 0 <= i < |infos| ==> infos[i].queueCount == 1 && infos[i].priority == 1.0
    ensures forall i :: 0 <= i < |infos| ==>
              infos[i].queueFamilyIndex == graphicsFamily || infos[i].queueFamilyIndex == presentFamily
    ensures exists i :: 0 <= i < |infos| && infos[i].queueFamilyIndex == graphicsFamily
    ensures exists i :: 0 <= i < |infos| && infos[i].queueFamilyIndex == presentFamily
    ensures forall i, j :: 0 <= i < j < |infos| ==> infos[i].queueFamilyIndex < infos[j].queueFamilyIndex
  {
    var uniqueQueueFamilies := UniqueFamilies(graphicsFamily, presentFamily);
    infos := [];
    var k := 0;
    while k < |uniqueQueueFamilies|
      invariant 0 <= k <= |uniqueQueueFamilies|
      invariant |infos| == k
      invariant forall i :: 0 <= i < k ==> infos[i] == QueueCreateInfo(uniqueQueueFamilies[i], 1, 1.0)
    {
      infos := infos + [QueueCreateInfo(uniqueQueueFamilies[k], 1, 1.0)];
      k := k + 1;
    }
    var gi :| 0 <= gi < |uniqueQueueFamilies| && uniqueQueueFamilies[gi] == graphicsFamily;
    var pi :| 0 <= pi < |uniqueQueueFamilies| && uniqueQueueFamilies[pi] == presentFamily;
    assert infos[gi].queueFamilyIndex == graphicsFamily;
    assert infos[pi].queueFamilyIndex == presentFamily;
  }

  // ---------------------------------------------------------------------
  // transitionImageLayout

  /** The layout pairs accepted when recording ray tracing work. */
  const RAYTRACING_TRANSITIONS: set<(ImageLayout, ImageLayout)> := {
    (Undefined, General),
    (General, TransferSrcOptimal),
    (Undefined, TransferDstOptimal),
    (TransferSrcOptimal, General),
    (TransferDstOptimal, PresentSrc)
  }

  /** The layout pairs accepted otherwise (texture upload). */
  const RASTER_TRANSITIONS: set<(ImageLayout, ImageLayout)> := {
    (Undefined, TransferDstOptimal),
    (TransferDstOptimal, ShaderReadOnlyOptimal)
  }

  function AcceptedTransitions(raytracing: bool): set<(ImageLayout, ImageLayout)> {
    if raytracing then RAYTRACING_TRANSITIONS else RASTER_TRANSITIONS
  }

  function TransitionError(raytracing: bool): Error {
    InvalidArgument(if raytracing then "unsupported layout transition (rt)!" else "unsupported layout transition!")
  }

  /** The pipeline barrier `transitionImageLayout` records for one colour
      subresource, or the exception it throws for a pair outside its table.
      The access masks follow the layouts: a transfer write is waited on
      exactly when leaving TRANSFER_DST and made available exactly when
      entering it, and likewise transfer reads and TRANSFER_SRC. */
  function TransitionBarrier(image: Handle, oldLayout: ImageLayout, newLayout: ImageLayout, raytracing: bool): (r: Result<Command>)
    ensures r.Ok? <==> (oldLayout, newLayout) in AcceptedTransitions(raytracing)
    ensures r.Err? ==> r.error == TransitionError(raytracing)
    ensures r.Ok? ==> r.value.PipelineBarrier? && r.value.image == image
                      && r.value.barrier.oldLayout == oldLayout && r.value.barrier.newLayout == newLayout
                      && r.value.barrier.subresource == SingleRange(ColorAspect)
    ensures r.Ok? && raytracing ==> r.value.srcStage == AllCommands && r.value.dstStage == AllCommands
    ensures r.Ok? && !raytracing && oldLayout == Undefined ==> r.value.srcStage == TopOfPipe && r.value.dstStage == TransferStage
    ensures r.Ok? && !raytracing && oldLayout != Undefined ==> r.value.srcStage == TransferStage && r.value.dstStage == FragmentShaderStage
    ensures r.Ok? ==> (TransferWrite in r.value.barrier.srcAccess <==> oldLayout == TransferDstOptimal)
    ensures r.Ok? ==> (TransferWrite in r.value.barrier.dstAccess <==> newLayout == TransferDstOptimal)
    ensures r.Ok? ==> (TransferRead in r.value.barrier.srcAccess <==> oldLayout == TransferSrcOptimal)
    ensures r.Ok? ==> (TransferRead in r.value.barrier.dstAccess <==> newLayout == TransferSrcOptimal)
    ensures r.Ok? ==> (ShaderRead in r.value.barrier.dstAccess <==> newLayout == ShaderReadOnlyOptimal)
    ensures r.Ok? ==> ShaderRead !in r.value.barrier.srcAccess
  {
    var range := SingleRange(ColorAspect);
    if raytracing then
      if oldLayout == Undefined && newLayout == General then
        Ok(PipelineBarrier(image, AllCommands, AllCommands, ImageMemoryBarrier(oldLayout, newLayout, {}, {}, range)))
      else if oldLayout == General && newLayout == TransferSrcOptimal then
        Ok(PipelineBarrier(image, AllCommands, AllCommands, ImageMemoryBarrier(oldLayout, newLayout, {}, {TransferRead}, range)))
      else if oldLayout == Undefined && newLayout == TransferDstOptimal then
        Ok(PipelineBarrier(image, AllCommands, AllCommands, ImageMemoryBarrier(oldLayout, newLayout, {}, {TransferWrite}, range)))
      else if oldLayout == TransferSrcOptimal && newLayout == General then
        Ok(PipelineBarrier(image, AllCommands, AllCommands, ImageMemoryBarrier(oldLayout, newLayout, {TransferRead}, {}, range)))
      else if oldLayout == TransferDstOptimal && newLayout == PresentSrc then
        Ok(PipelineBarrier(image, AllCommands, AllCommands, ImageMemoryBarrier(oldLayout, newLayout, {TransferWrite}, {}, range)))
      else
        Err(TransitionError(raytracing))
    else
      if oldLayout == Undefined && newLayout == TransferDstOptimal then
        Ok(PipelineBarrier(image, TopOfPipe, TransferStage, ImageMemoryBarrier(oldLayout, newLayout, {}, {TransferWrite}, range)))
      else if oldLayout == TransferDstOptimal && newLayout == ShaderReadOnlyOptimal then
        Ok(PipelineBarrier(image, TransferStage, FragmentShaderStage, ImageMemoryBarrier(oldLayout, newLayout, {TransferWrite}, {ShaderRead}, range)))
      else
        Err(TransitionError(raytracing))
  }

  /** `createImageView`: a 2D view of one colour or depth subresource. */
  function CreateImageView(image: Handle, format: Format, aspect: ImageAspect, result: VkResult): (r: Result<ImageView>)
    ensures r.Ok? <==> result == Success
    ensures r.Ok? ==> r.value.image == image && r.value.format == format && r.value.range == SingleRange(aspect)
    ensures r.Err? ==> r.error == RuntimeError("failed to create texture image view!")
  {
    if result != Success then Err(RuntimeError("failed to create texture image view!"))
    else Ok(ImageView(image, format, SingleRange(aspect)))
  }

  /** The region `copyImage` copies: the whole first layer of the first mip
      level, `extent` wide and high, one deep. */
  function FullImageCopy(extent: Extent2D): ImageCopy {
    ImageCopy(COLOR_LAYERS, COLOR_LAYERS, Extent3D(extent.width, extent.height, 1))
  }

  /** The host calls of one one-shot command buffer, from its allocation to
      its release. */
  function OneShotCalls(queue: Queue, commandBuffer: Handle): seq<Call> {
    [AllocateCommandBuffer(commandBuffer), BeginCommandBuffer(commandBuffer, true),
     EndCommandBuffer(commandBuffer), Call.QueueSubmit(queue, commandBuffer, None, None, 0),
     QueueWaitIdle(queue), FreeCommandBuffer(commandBuffer)]
  }

  class Device {
    /** What the driver reported about the adapter the device was made from. */
    const physical: PD.DeviceInfo
    const queueCreateInfos: seq<QueueCreateInfo>
    const graphicsQueue: Queue
    const presentQueue: Queue
    /** The pool all command buffers come from; its family is the graphics
        family and it allows resetting individual command buffers. */
    const commandPool: Handle
    const commandPoolFamily: nat

    var nextHandle: nat
    var recording: map<Handle, seq<Command>>
    var executed: seq<Command>
    var calls: seq<Call>

    ghost predicate Valid()
      reads this`nextHandle, this`recording
    {
      0 < commandPool < nextHandle
      && (forall h :: h in recording ==> 0 < h < nextHandle)
      && |physical.memoryTypes| <= PD.MAX_MEMORY_TYPES
    }

    constructor (physical: PD.DeviceInfo, queueCreateInfos: seq<QueueCreateInfo>, graphicsFamily: nat, presentFamily: nat)
      requires |physical.memoryTypes| <= PD.MAX_MEMORY_TYPES
      ensures Valid()
      ensures this.physical == physical && this.queueCreateInfos == queueCreateInfos
      ensures graphicsQueue == Queue(graphicsFamily, 0) && presentQueue == Queue(presentFamily, 0)
      ensures commandPoolFamily == graphicsFamily
      ensures recording == map[] && executed == [] && calls == []
    {
      this.physical := physical;
      this.queueCreateInfos := queueCreateInfos;
      graphicsQueue := Queue(graphicsFamily, 0);
      presentQueue := Queue(presentFamily, 0);
      commandPool := 1;
      commandPoolFamily := graphicsFamily;
      nextHandle := 2;
      recording := map[];
      executed := [];
      calls := [];
    }

    /** A handle the driver has not returned before. */
    method NewHandle() returns (h: Handle)
      requires Valid()
      modifies this`nextHandle
      ensures Valid()
      ensures h == old(nextHandle) && nextHandle == h + 1 && h > 0
      ensures recording == old(recording) && executed == old(executed) && calls == old(calls)
    {
      h := nextHandle;
      nextHandle := nextHandle + 1;
    }

    /** A call with no effect the model tracks beyond its place in `calls`. */
    method Log(call: Call)
      modifies this`calls
      ensures calls == old(calls) + [call]
      ensures nextHandle == old(nextHandle) && recording == old(recording) && executed == old(executed)
    {
      calls := calls + [call];
    }

    /** Several such calls, in order. */
    method LogAll(more: seq<Call>)
      modifies this`calls
      ensures calls == old(calls) + more
    {
      calls := calls + more;
    }

    /** `waitIdle` */
    method WaitIdle()
      modifies this`calls
      ensures calls == old(calls) + [DeviceWaitIdle]
      ensures nextHandle == old(nextHandle) && recording == old(recording) && executed == old(executed)
    {
      calls := calls + [DeviceWaitIdle];
    }

    /** Appends one command to a command buffer being recorded. */
    method Record(commandBuffer: Handle, command: Command)
      requires commandBuffer in recording
      modifies this`recording
      ensures recording == old(recording)[commandBuffer := old(recording)[commandBuffer] + [command]]
    {
      recording := recording[commandBuffer := recording[commandBuffer] + [command]];
    }

    /** Allocates a primary command buffer from the pool, kept for reuse. */
    method AllocatePrimaryCommandBuffer() returns (commandBuffer: Handle)
      requires Valid()
      modifies this
      ensures Valid()
      ensures commandBuffer == old(nextHandle) && commandBuffer !in old(recording)
      ensures nextHandle == old(nextHandle) + 1
      ensures recording == old(recording)[commandBuffer := []]
      ensures calls == old(calls) + [Call.AllocateCommandBuffer(commandBuffer)]
      ensures executed == old(executed)
    {
      commandBuffer := nextHandle;
      nextHandle := nextHandle + 1;
      recording := recording[commandBuffer := []];
      calls := calls + [Call.AllocateCommandBuffer(commandBuffer)];
    }

    /** Allocates a primary command buffer from the pool and begins it for
        one submission. */
    method BeginSingleTimeCommands() returns (commandBuffer: Handle)
      requires Valid()
      modifies this
      ensures Valid()
      ensures commandBuffer == old(nextHandle) && commandBuffer !in old(recording)
      ensures nextHandle == old(nextHandle) + 1
      ensures recording == old(recording)[commandBuffer := []]
      ensures calls == old(calls) + [AllocateCommandBuffer(commandBuffer), BeginCommandBuffer(commandBuffer, true)]
      ensures executed == old(executed)
    {
      commandBuffer := NewHandle();
      recording := recording[commandBuffer := []];
      calls := calls + [AllocateCommandBuffer(commandBuffer), BeginCommandBuffer(commandBuffer, true)];
    }

    /** Ends the buffer, submits it to the graphics queue without a fence,
        waits for that queue to go idle, and only then frees the buffer:
        its commands have all executed when this returns. */
    method EndSingleTimeCommands(commandBuffer: Handle)
      requires Valid() && commandBuffer in recording
      modifies this
      ensures Valid()
      ensures calls == old(calls) + [EndCommandBuffer(commandBuffer),
                                     Call.QueueSubmit(graphicsQueue, commandBuffer, None, None, 0),
                                     QueueWaitIdle(graphicsQueue),
                                     FreeCommandBuffer(commandBuffer)]
      ensures executed == old(executed) + old(recording)[commandBuffer]
      ensures recording == old(recording) - {commandBuffer}
      ensures nextHandle == old(nextHandle)
    {
      calls := calls + [EndCommandBuffer(commandBuffer)];
      calls := calls + [Call.QueueSubmit(graphicsQueue, commandBuffer, None, None, 0)];
      executed := executed + recording[commandBuffer];
      calls := calls + [QueueWaitIdle(graphicsQueue)];
      recording := recording - {commandBuffer};
      calls := calls + [FreeCommandBuffer(commandBuffer)];
    }

    /** The one-command pattern of the engine: begin a single-time
        command buffer, record `command`, end it. The command has executed
        when this returns and nothing else is left recorded. */
    method RunOneShot(command: Command)
      requires Valid()
      modifies this
      ensures Valid()
      ensures executed == old(executed) + [command]
      ensures recording == old(recording)
      ensures calls == old(calls) + OneShotCalls(graphicsQueue, old(nextHandle))
      ensures nextHandle == old(nextHandle) + 1
    {
      var commandBuffer := BeginSingleTimeCommands();
      Record(commandBuffer, command);
      EndSingleTimeCommands(commandBuffer);
      assert recording == old(recording);
    }

    /** `transitionImageLayout`: records the table's barrier, or throws
        without recording anything. */
    method TransitionImageLayout(image: Handle, oldLayout: ImageLayout, newLayout: ImageLayout, commandBuffer: Handle, raytracing: bool)
      returns (r: Result<()>)
      requires commandBuffer in recording
      modifies this
      ensures r.Ok? <==> (oldLayout, newLayout) in AcceptedTransitions(raytracing)
      ensures r.Err? ==> r.error == TransitionError(raytracing) && recording == old(recording)
      ensures r.Ok? ==> recording == old(recording)[commandBuffer := old(recording)[commandBuffer]
                          + [TransitionBarrier(image, oldLayout, newLayout, raytracing).value]]
      ensures nextHandle == old(nextHandle) && executed == old(executed) && calls == old(calls)
    {
      var barrier := TransitionBarrier(image, oldLayout, newLayout, raytracing);
      if barrier.Err? {
        return Err(barrier.error);
      }
      Record(commandBuffer, barrier.value);
      r := Ok(());
    }

    /** `copyImage`: records a copy of the whole colour layer from an image
        in TRANSFER_SRC layout to one in TRANSFER_DST layout. */
    method CopyImage(srcImage: Handle, dstImage: Handle, extent: Extent2D, commandBuffer: Handle)
      requires commandBuffer in recording
      modifies this
      ensures recording == old(recording)[commandBuffer := old(recording)[commandBuffer]
                + [Command.CopyImage(srcImage, TransferSrcOptimal, dstImage, TransferDstOptimal, FullImageCopy(extent))]]
      ensures nextHandle == old(nextHandle) && executed == old(executed) && calls == old(calls)
    {
      Record(commandBuffer, Command.CopyImage(srcImage, TransferSrcOptimal, dstImage, TransferDstOptimal, FullImageCopy(extent)));
    }

    /** `vkResetCommandBuffer` on a per-frame buffer. */
    method ResetCommandBuffer(commandBuffer: Handle)
      requires Valid() && commandBuffer in recording
      modifies this
      ensures Valid()
      ensures recording == old(recording)[commandBuffer := []]
      ensures calls == old(calls) + [Call.ResetCommandBuffer(commandBuffer)]
      ensures nextHandle == old(nextHandle) && executed == old(executed)
    {
      recording := recording[commandBuffer := []];
      calls := calls + [Call.ResetCommandBuffer(commandBuffer)];
    }

    /** `vkQueueSubmit` of one per-frame buffer to the graphics queue; its
        commands join the GPU timeline when the submission succeeds. */
    method QueueSubmit(commandBuffer: Handle, waitSemaphore: Handle, signalSemaphore: Handle, fence: Handle, result: VkResult)
      requires commandBuffer in recording
      modifies this`calls, this`executed
      ensures calls == old(calls) + [Call.QueueSubmit(graphicsQueue, commandBuffer, Some(waitSemaphore), Some(signalSemaphore), fence)]
      ensures executed == old(executed) + (if result == Success then recording[commandBuffer] else [])
    {
      calls := calls + [Call.QueueSubmit(graphicsQueue, commandBuffer, Some(waitSemaphore), Some(signalSemaphore), fence)];
      if result == Success {
        executed := executed + recording[commandBuffer];
      }
    }
  }

  /** `Device::Device`: one queue per distinct family, the graphics and
      present queues at index 0, and a resettable command pool for the
      graphics family; either creation call may fail. */
  method NewDevice(physical: PD.DeviceInfo, createResult: VkResult, poolResult: VkResult) returns (r: Result<Device>)
    requires PD.SelectedQueueFamilies(physical.queueFamilies).IsComplete()
    requires |physical.memoryTypes| <= PD.MAX_MEMORY_TYPES
    ensures createResult != Success ==> r == Err(RuntimeError("failed to create logical device!"))
    ensures createResult == Success && poolResult != Success ==> r == Err(RuntimeError("failed to create graphics command pool!"))
    ensures r.Ok? <==> createResult == Success && poolResult == Success
    ensures r.Ok? ==> fresh(r.value) && r.value.Valid()
    ensures r.Ok? ==> var indices := PD.SelectedQueueFamilies(physical.queueFamilies);
                      r.value.graphicsQueue == Queue(indices.graphicsFamily.value, 0)
                      && r.value.presentQueue == Queue(indices.presentFamily.value, 0)
                      && r.value.commandPoolFamily == indices.graphicsFamily.value
                      && |r.value.queueCreateInfos| == (if indices.graphicsFamily == indices.presentFamily then 1 else 2)
    ensures r.Ok? ==> var infos, g, p := r.value.queueCreateInfos,
                                         PD.SelectedQueueFamilies(physical.queueFamilies).graphicsFamily.value,
                                         PD.SelectedQueueFamilies(physical.queueFamilies).presentFamily.value;
                      (forall i :: 0 <= i < |infos| ==> infos[i].queueCount == 1 && infos[i].priority == 1.0)
                      && (forall i :: 0 <= i < |infos| ==> infos[i].queueFamilyIndex == g || infos[i].queueFamilyIndex == p)
                      && (exists i :: 0 <= i < |infos| && infos[i].queueFamilyIndex == g)
                      && (exists i :: 0 <= i < |infos| && infos[i].queueFamilyIndex == p)
                      && (forall i, j :: 0 <= i < j < |infos| ==> infos[i].queueFamilyIndex < infos[j].queueFamilyIndex)
    ensures r.Ok? ==> r.value.executed == [] && r.value.calls == [] && r.value.recording == map[]
  {
    var indices := PD.SelectedQueueFamilies(physical.queueFamilies);
    var infos := QueueCreateInfos(indices.graphicsFamily.value, indices.presentFamily.value);
    if createResult != Success {
      return Err(RuntimeError("failed to create logical device!"));
    }
    if poolResult != Success {
      return Err(RuntimeError("failed to create graphics command pool!"));
    }
    var device := new Device(physical, infos, indices.graphicsFamily.value, indices.presentFamily.value);
    r := Ok(device);
  }
}
