/** The ray tracing backend (`Raytracer`): the descriptor set layout and
    pool, the shader groups and push-constant ranges of the pipeline, the
    shader binding table cut from the driver's group handles, the output
    image and descriptor set, and the per-frame recording with its
    progressive-accumulation counters. The swap chain's extent and back
    image are passed in where the source asks the swap chain for them. */
module Raytracers {
  import opened Wrappers
  import opened Vulkan
  import Devices
  import Buffers
  import Images
  import FrameCommands
  import LayoutProtocol

  // ---------------------------------------------------------------------
  // Descriptor set layout, pool and writes

  datatype DescriptorBinding = DescriptorBinding(binding: nat, descriptorType: DescriptorType, descriptorCount: nat, stage: ShaderStage)

  /** The structure to trace against and the output image for ray
      generation; vertices, indices and faces for closest hit; the camera
      uniform for ray generation. */
  const DESCRIPTOR_BINDINGS: seq<DescriptorBinding> := [
    DescriptorBinding(0, AccelerationStructureDescriptor, 1, Raygen),
    DescriptorBinding(1, StorageImageDescriptor, 1, Raygen),
    DescriptorBinding(2, StorageBufferDescriptor, 1, ClosestHit),
    DescriptorBinding(3, StorageBufferDescriptor, 1, ClosestHit),
    DescriptorBinding(4, StorageBufferDescriptor, 1, ClosestHit),
    DescriptorBinding(5, UniformBufferDescriptor, 1, Raygen)
  ]

  datatype PoolSize = PoolSize(poolType: DescriptorType, descriptorCount: nat)

  const POOL_SIZES: seq<PoolSize> := [
    PoolSize(AccelerationStructureDescriptor, 1),
    PoolSize(StorageImageDescriptor, 1),
    PoolSize(StorageBufferDescriptor, 1),
    PoolSize(StorageBufferDescriptor, 1),
    PoolSize(StorageBufferDescriptor, 1),
    PoolSize(UniformBufferDescriptor, 1)
  ]

  const MAX_SETS: nat := 1

  /** The pool holds exactly the descriptors of one set of the layout,
      entry for entry, and the bindings are numbered in order. */
  lemma PoolMatchesLayout()
    ensures |POOL_SIZES| == |DESCRIPTOR_BINDINGS| == 6
    ensures forall i :: 0 <= i < |DESCRIPTOR_BINDINGS| ==>
              DESCRIPTOR_BINDINGS[i].binding == i
              && POOL_SIZES[i] == PoolSize(DESCRIPTOR_BINDINGS[i].descriptorType, DESCRIPTOR_BINDINGS[i].descriptorCount)
  {
  }

  /** The resources of the loaded scene the descriptor set points at. */
  datatype SceneBindings = SceneBindings(tlas: Handle, vertexBuffer: Handle, indexBuffer: Handle, faceBuffer: Handle)

  /** The six writes of `createDescriptorSet`. Each writes the binding of
      the same position in the layout with that binding's type and count;
      the output view is written for use in the GENERAL layout. */
  function DescriptorWrites(descriptorSet: Handle, scene: SceneBindings, outputView: ImageView,
                            uniformBuffer: Handle, uniformSize: nat): (writes: seq<DescriptorWrite>)
    ensures |writes| == |DESCRIPTOR_BINDINGS|
    ensures forall i :: 0 <= i < |writes| ==>
              writes[i].dstSet == descriptorSet
              && writes[i].dstBinding == DESCRIPTOR_BINDINGS[i].binding
              && writes[i].descriptorType == DESCRIPTOR_BINDINGS[i].descriptorType
              && writes[i].descriptorCount == DESCRIPTOR_BINDINGS[i].descriptorCount
    ensures writes[0].resource == StructureResource(scene.tlas)
    ensures writes[1].resource == ImageResource(outputView, General)
    ensures writes[5].resource == BufferResource(uniformBuffer, Some(uniformSize))
  {
    [DescriptorWrite(descriptorSet, 0, AccelerationStructureDescriptor, 1, StructureResource(scene.tlas)),
     DescriptorWrite(descriptorSet, 1, StorageImageDescriptor, 1, ImageResource(outputView, General)),
     DescriptorWrite(descriptorSet, 2, StorageBufferDescriptor, 1, BufferResource(scene.vertexBuffer, None)),
     DescriptorWrite(descriptorSet, 3, StorageBufferDescriptor, 1, BufferResource(scene.indexBuffer, None)),
     DescriptorWrite(descriptorSet, 4, StorageBufferDescriptor, 1, BufferResource(scene.faceBuffer, None)),
     DescriptorWrite(descriptorSet, 5, UniformBufferDescriptor, 1, BufferResource(uniformBuffer, Some(uniformSize)))]
  }

  // ---------------------------------------------------------------------
  // Pipeline: stages, shader groups, push constants

  /** `VK_SHADER_UNUSED_KHR` */
  const SHADER_UNUSED: U32 := 0xFFFF_FFFF

  /** The pipeline's stages, by position: ray generation, miss, closest hit. */
  const SHADER_STAGES: seq<ShaderStage> := [Raygen, Miss, ClosestHit]

  const MAX_RECURSION_DEPTH: nat := 2

  datatype GroupType = GeneralGroup | TrianglesHitGroup

  datatype ShaderGroup = ShaderGroup(
    groupType: GroupType, generalShader: U32, closestHitShader: U32, anyHitShader: U32, intersectionShader: U32)

  /** A general group names one ray generation or miss stage and nothing
      else; a triangles hit group names one closest-hit stage and nothing
      else. */
  predicate WellFormedGroup(group: ShaderGroup, stages: seq<ShaderStage>) {
    group.anyHitShader == SHADER_UNUSED && group.intersectionShader == SHADER_UNUSED
    && match group.groupType
       case GeneralGroup =>
         group.closestHitShader == SHADER_UNUSED && group.generalShader < |stages| && stages[group.generalShader] != ClosestHit
       case TrianglesHitGroup =>
         group.generalShader == SHADER_UNUSED && group.closestHitShader < |stages| && stages[group.closestHitShader] == ClosestHit
  }

  /** The pipeline's groups, in order: ray generation and miss as general
      groups, then the closest-hit stage as a triangles hit group. */
  const SHADER_GROUPS: seq<ShaderGroup> := [
    ShaderGroup(GeneralGroup, 0, SHADER_UNUSED, SHADER_UNUSED, SHADER_UNUSED),
    ShaderGroup(GeneralGroup, 1, SHADER_UNUSED, SHADER_UNUSED, SHADER_UNUSED),
    ShaderGroup(TrianglesHitGroup, SHADER_UNUSED, 2, SHADER_UNUSED, SHADER_UNUSED)
  ]

  datatype PushConstantRange = PushConstantRange(stage: ShaderStage, offset: nat, size: nat)

  /** `sizeof(int)` */
  const INT_SIZE: nat := 4

  const PUSH_CONSTANT_RANGES: seq<PushConstantRange> := [
    PushConstantRange(Raygen, 0, INT_SIZE),
    PushConstantRange(Raygen, INT_SIZE, INT_SIZE)
  ]

  /** Whether a push of `size` bytes at `offset` for `stage` lies inside a
      declared range. */
  predicate PushCovered(ranges: seq<PushConstantRange>, stage: ShaderStage, offset: nat, size: nat) {
    exists i :: 0 <= i < |ranges| && ranges[i].stage == stage
                && ranges[i].offset <= offset && offset + size <= ranges[i].offset + ranges[i].size
  }

  // ---------------------------------------------------------------------
  // Shader binding table

  /** The driver's `shaderGroupHandleSize` and `shaderGroupHandleAlignment`. */
  datatype RayTracingProperties = RayTracingProperties(handleSize: U32, handleAlignment: U32)

  /** `groupCount * handleSizeAligned`, computed in `uint32_t`. */
  function SbtSize(groupCount: nat, alignment: U32): (size: U32)
    ensures groupCount * alignment < TWO_32 ==> size == groupCount * alignment
  {
    ToU32(groupCount * alignment)
  }

  /** Group `k`'s handle is read from offset `k * alignment`; with three
      groups and no wrap-around, the three reads of `handleSize` bytes stay
      inside the handle storage exactly when the handle fits its aligned
      slot. */
  lemma HandleReadsInBounds(properties: RayTracingProperties)
    requires 3 * properties.handleAlignment < TWO_32
    ensures (forall k :: 0 <= k < 3 ==>
               k * properties.handleAlignment + properties.handleSize <= SbtSize(3, properties.handleAlignment))
            <==> properties.handleSize <= properties.handleAlignment
  {
    var a, h := properties.handleAlignment, properties.handleSize;
    if h <= a {
      forall k | 0 <= k < 3
        ensures k * a + h <= SbtSize(3, a)
      {
        assert k * a <= 2 * a;
      }
    } else {
      assert !(2 * a + h <= SbtSize(3, a));
    }
  }

  /** The `size` bytes at `offset` of the handle storage. `memcpy` reads
      on past the storage's end, into whatever host memory follows it
      (`pastStorage`), when the handle does not fit its aligned slot. */
  function StorageRead(handles: seq<Byte>, pastStorage: seq<Byte>, offset: nat, size: nat): (bytes: seq<Byte>)
    requires offset + size <= |handles| + |pastStorage|
    ensures |bytes| == size
    ensures offset + size <= |handles| ==> bytes == handles[offset..offset + size]
    ensures forall j :: 0 <= j < size && offset + j < |handles| ==> bytes[j] == handles[offset + j]
  {
    (handles + pastStorage)[offset..offset + size]
  }

  /** A region of one aligned entry: stride and size both the alignment. */
  function SbtRegion(sbt: Buffers.Buffer, alignment: U32): (region: StridedRegion) {
    StridedRegion(sbt.deviceAddress, alignment, alignment)
  }

  // ---------------------------------------------------------------------
  // Progressive accumulation

  /** The greatest index of a frame on which the camera moved. */
  function LastMove(moves: seq<bool>): (r: Option<nat>)
    ensures r.Some? ==> r.value < |moves| && moves[r.value]
    ensures r.Some? ==> forall j :: r.value < j < |moves| ==> !moves[j]
    ensures r.None? ==> forall j :: 0 <= j < |moves| ==> !moves[j]
    decreases |moves|
  {
    if |moves| == 0 then None
    else if moves[|moves| - 1] then Some(|moves| - 1)
    else LastMove(moves[..|moves| - 1])
  }

  /** `standingFrames` after records whose camera-moved flags are `moves`,
      without wrap-around: reset to zero on a moved frame, then one more
      per record. */
  function StandingFrames(moves: seq<bool>): nat
    decreases |moves|
  {
    if |moves| == 0 then 0
    else (if moves[|moves| - 1] then 0 else StandingFrames(moves[..|moves| - 1])) + 1
  }

  /** The counter is the number of frames recorded since the last frame on
      which the camera moved, that frame included, or of all frames when it
      never moved. */
  lemma {:induction false} StandingFramesCounts(moves: seq<bool>)
    ensures StandingFrames(moves) == (match LastMove(moves) case Some(k) => |moves| - k case None => |moves|)
    decreases |moves|
  {
    if |moves| > 0 && !moves[|moves| - 1] {
      var front := moves[..|moves| - 1];
      StandingFramesCounts(front);
      assert LastMove(moves) == LastMove(front);
    }
  }

  // ---------------------------------------------------------------------
  // Frame recording and its GPU timeline

  /** The descriptor bindings and shader binding table regions the trace
      uses. */
  datatype TraceSetup = TraceSetup(
    pipeline: Handle, pipelineLayout: Handle, descriptorSet: Handle,
    raygen: StridedRegion, miss: StridedRegion, hit: StridedRegion, callable: StridedRegion)

  /** The ray tracing part of a frame: bind, push the frame number at offset
      0 and the standing-frame count at offset 4, trace the swap chain's
      width by height with depth 2 into the output image. */
  function TraceCommands(setup: TraceSetup, frame: U32, standing: U32, extent: Extent2D, output: Handle): (commands: seq<Command>)
    ensures |commands| == 5 && commands[4].TraceRays? && commands[4].storageImage == output
  {
    [BindRayTracingPipeline(setup.pipeline),
     BindRayTracingDescriptorSet(setup.pipelineLayout, setup.descriptorSet),
     PushConstants(setup.pipelineLayout, Raygen, 0, INT_SIZE, frame),
     PushConstants(setup.pipelineLayout, Raygen, INT_SIZE, INT_SIZE, standing),
     TraceRays(setup.raygen, setup.miss, setup.hit, setup.callable, extent.width, extent.height, 2, output)]
  }

  /** The standing-frame count a frame pushes: zero when the camera moved. */
  function Pushed(hasMoved: bool, standing: U32): (pushed: U32)
    ensures pushed <= standing
  {
    if hasMoved then 0 else standing
  }

  /** Both pushes of a frame lie inside the declared push-constant ranges,
      and those ranges do not overlap. */
  lemma PushesCovered(setup: TraceSetup, frame: U32, standing: U32, extent: Extent2D, output: Handle)
    ensures forall k :: 0 <= k < |TraceCommands(setup, frame, standing, extent, output)| ==>
              var c := TraceCommands(setup, frame, standing, extent, output)[k];
              c.PushConstants? ==> PushCovered(PUSH_CONSTANT_RANGES, c.stage, c.offset, c.size)
    ensures PUSH_CONSTANT_RANGES[0].offset + PUSH_CONSTANT_RANGES[0].size <= PUSH_CONSTANT_RANGES[1].offset
  {
    var commands := TraceCommands(setup, frame, standing, extent, output);
    assert PUSH_CONSTANT_RANGES[0].offset <= commands[2].offset;
    assert commands[3].offset + commands[3].size <= PUSH_CONSTANT_RANGES[1].offset + PUSH_CONSTANT_RANGES[1].size;
  }

  /** Everything the frame's command buffer holds once recorded. */
  function FrameRecording(setup: TraceSetup, frame: U32, standing: U32, extent: Extent2D, output: Handle, back: Handle): (commands: seq<Command>)
    ensures |commands| == 9
  {
    TraceCommands(setup, frame, standing, extent, output) + FrameCommands.BackImageCopy(output, back, extent)
  }

  /** What the GPU executes for one frame: the return barrier, run while the
      frame was being recorded, then the frame's command buffer once it is
      submitted. */
  function FrameTimeline(setup: TraceSetup, frame: U32, standing: U32, extent: Extent2D, output: Handle, back: Handle): (commands: seq<Command>)
    ensures |commands| == 10
  {
    [FrameCommands.ReturnToGeneral(output)] + FrameRecording(setup, frame, standing, extent, output, back)
  }

  /** A frame that starts with the output image in TRANSFER_SRC, where the
      previous frame left it, follows the layout protocol and leaves the
      output image in TRANSFER_SRC again and the back image in PRESENT_SRC. */
  lemma SteadyFrameConforms(layouts: LayoutProtocol.Layouts, setup: TraceSetup, frame: U32, standing: U32,
                            extent: Extent2D, output: Handle, back: Handle)
    requires output != back
    requires LayoutProtocol.LayoutOf(layouts, output) == TransferSrcOptimal
    ensures LayoutProtocol.Run(layouts, FrameTimeline(setup, frame, standing, extent, output, back))
            == Some(layouts[output := TransferSrcOptimal][back := PresentSrc])
  {
    var general := layouts[output := General];
    var trace := TraceCommands(setup, frame, standing, extent, output);
    var copy := FrameCommands.BackImageCopy(output, back, extent);
    assert FrameTimeline(setup, frame, standing, extent, output, back) == [FrameCommands.ReturnToGeneral(output)] + (trace + copy);
    LayoutProtocol.RunAppend(layouts, [FrameCommands.ReturnToGeneral(output)], trace + copy);
    assert LayoutProtocol.Run(layouts, [FrameCommands.ReturnToGeneral(output)]) == Some(general);
    LayoutProtocol.RunAppend(general, trace, copy);
    assert LayoutProtocol.LayoutOf(general, output) == General;
    LayoutProtocol.RunPassive(general, trace);
    FrameCommands.BackImageCopyConforms(general, output, back, extent);
    assert general[output := TransferSrcOptimal] == layouts[output := TransferSrcOptimal];
  }

  /** A frame that starts with the output image in GENERAL, where
      `createDescriptorSet` leaves it, breaks the protocol at once: the
      separately submitted barrier names TRANSFER_SRC as the old layout. */
  lemma FirstFrameBreaksProtocol(layouts: LayoutProtocol.Layouts, setup: TraceSetup, frame: U32, standing: U32,
                                 extent: Extent2D, output: Handle, back: Handle)
    requires LayoutProtocol.LayoutOf(layouts, output) == General
    ensures LayoutProtocol.Run(layouts, FrameTimeline(setup, frame, standing, extent, output, back)) == None
  {
    var timeline := FrameTimeline(setup, frame, standing, extent, output, back);
    assert timeline[0] == FrameCommands.ReturnToGeneral(output);
    assert LayoutProtocol.Step(layouts, timeline[0]) == None;
  }

  /** One frame's changing inputs: the two pushed counters and the back
      image of its slot. */
  datatype FrameInputs = FrameInputs(frame: U32, standing: U32, back: Handle)

  function FramesTimeline(setup: TraceSetup, extent: Extent2D, output: Handle, frames: seq<FrameInputs>): seq<Command>
    decreases |frames|
  {
    if |frames| == 0 then []
    else FramesTimeline(setup, extent, output, frames[..|frames| - 1])
         + FrameTimeline(setup, frames[|frames| - 1].frame, frames[|frames| - 1].standing, extent, output, frames[|frames| - 1].back)
  }

  /** Once the output image is in TRANSFER_SRC, any number of further frames
      follow the protocol, provided no back image is the output image. */
  lemma {:induction false} SteadyFramesConform(layouts: LayoutProtocol.Layouts, setup: TraceSetup, extent: Extent2D,
                                               output: Handle, frames: seq<FrameInputs>)
    requires LayoutProtocol.LayoutOf(layouts, output) == TransferSrcOptimal
    requires forall i :: 0 <= i < |frames| ==> frames[i].back != output
    ensures LayoutProtocol.Run(layouts, FramesTimeline(setup, extent, output, frames)).Some?
    ensures LayoutProtocol.LayoutOf(LayoutProtocol.Run(layouts, FramesTimeline(setup, extent, output, frames)).value, output)
            == TransferSrcOptimal
    decreases |frames|
  {
    if |frames| > 0 {
      var front := frames[..|frames| - 1];
      var last := frames[|frames| - 1];
      SteadyFramesConform(layouts, setup, extent, output, front);
      var before := FramesTimeline(setup, extent, output, front);
      var mid := LayoutProtocol.Run(layouts, before).value;
      LayoutProtocol.RunAppend(layouts, before, FrameTimeline(setup, last.frame, last.standing, extent, output, last.back));
      SteadyFrameConforms(mid, setup, last.frame, last.standing, extent, output, last.back);
    }
  }

  // ---------------------------------------------------------------------
  // The raytracer

  /** What the driver answers while the raytracer is built. */
  datatype RaytracerDriver = RaytracerDriver(
    layoutResult: VkResult,
    uniformSize: nat,
    uniformDriver: Buffers.BufferDriver,
    poolResult: VkResult,
    properties: RayTracingProperties,
    handlesResult: VkResult,
    handles: seq<Byte>,
    pastStorage: seq<Byte>,
    raygenDriver: Buffers.BufferDriver,
    missDriver: Buffers.BufferDriver,
    hitDriver: Buffers.BufferDriver)

  /** The calls that release an image the raytracer no longer holds. */
  function ReleaseCalls(image: Option<Images.Image>): (calls: seq<Call>)
    ensures image.None? <==> calls == []
  {
    if image.Some? then [DestroyImage(image.value.image), FreeMemory(image.value.memory)] else []
  }

  /** One shader binding table buffer, holding the `size` bytes of the
      handle storage that start at `offset`. */
  method NewSbtBuffer(device: Devices.Device, handles: seq<Byte>, pastStorage: seq<Byte>, offset: nat, size: nat,
                      driver: Buffers.BufferDriver)
    returns (r: Result<Buffers.Buffer>)
    requires device.Valid() && offset + size <= |handles| + |pastStorage| && driver.address != 0
    modifies device
    ensures device.Valid()
    ensures device.calls == old(device.calls) && device.executed == old(device.executed)
    ensures device.recording == old(device.recording)
    ensures r.Ok? ==> r.value.contents == StorageRead(handles, pastStorage, offset, size)
                      && r.value.bufferType == Buffers.ShaderBindingTableBuffer
                      && r.value.deviceAddress == driver.address
  {
    var memory := handles + pastStorage;
    r := Buffers.NewBuffer(device, Buffers.ShaderBindingTableBuffer, size, Some(memory[offset..]), driver);
    assert memory[offset..][..size] == memory[offset..offset + size];
  }

  class Raytracer {
    const device: Devices.Device

    var descriptorSetLayout: Handle
    var descriptorPool: Handle
    var descriptorSet: Handle
    var pipelineLayout: Handle
    var pipeline: Handle
    var uniformBuffer: Option<Buffers.Buffer>
    var shaderGroups: seq<ShaderGroup>
    var pushConstantRanges: seq<PushConstantRange>
    var raygenSBT: Option<Buffers.Buffer>
    var missSBT: Option<Buffers.Buffer>
    var hitSBT: Option<Buffers.Buffer>
    var raygenRegion: StridedRegion
    var missRegion: StridedRegion
    var hitRegion: StridedRegion
    var callRegion: StridedRegion
    var outputImage: Option<Images.Image>
    var outputImageView: Option<ImageView>
    /** The frame number and the frames since the camera last moved, both
        `uint32_t`. */
    var frame: U32
    var standingFrames: U32
    /** The camera-moved flag of every completed record, oldest first. */
    ghost var moves: seq<bool>
    /** What the driver objects were created from: the layout's bindings,
        the pool's sizes and set limit, and the pipeline's stages and
        recursion depth. */
    ghost var layoutBindings: seq<DescriptorBinding>
    ghost var poolSizes: seq<PoolSize>
    ghost var poolMaxSets: nat
    ghost var pipelineStages: seq<ShaderStage>
    ghost var maxRecursionDepth: nat

    constructor (device: Devices.Device)
      ensures this.device == device
      ensures uniformBuffer == None && shaderGroups == [] && pushConstantRanges == []
      ensures raygenSBT == None && missSBT == None && hitSBT == None
      ensures raygenRegion == EMPTY_REGION && missRegion == EMPTY_REGION && hitRegion == EMPTY_REGION
      ensures callRegion == EMPTY_REGION
      ensures outputImage == None && outputImageView == None
      ensures frame == 0 && standingFrames == 0 && moves == []
      ensures layoutBindings == [] && poolSizes == [] && poolMaxSets == 0
      ensures pipelineStages == [] && maxRecursionDepth == 0
    {
      this.device := device;
      descriptorSetLayout, descriptorPool, descriptorSet, pipelineLayout, pipeline := 0, 0, 0, 0, 0;
      uniformBuffer := None;
      shaderGroups, pushConstantRanges := [], [];
      raygenSBT, missSBT, hitSBT := None, None, None;
      raygenRegion, missRegion, hitRegion, callRegion := EMPTY_REGION, EMPTY_REGION, EMPTY_REGION, EMPTY_REGION;
      outputImage, outputImageView := None, None;
      frame, standingFrames := 0, 0;
      moves := [];
      layoutBindings, poolSizes, poolMaxSets := [], [], 0;
      pipelineStages, maxRecursionDepth := [], 0;
    }

    /** The counters are the number of completed records and the standing
        frames those records leave, both modulo 2^32. */
    ghost predicate CountersTrack()
      reads this`frame, this`standingFrames, this`moves
    {
      frame == ToU32(|moves|) && standingFrames == ToU32(StandingFrames(moves))
    }

    function Setup(): (setup: TraceSetup)
      reads this`pipeline, this`pipelineLayout, this`descriptorSet
      reads this`raygenRegion, this`missRegion, this`hitRegion, this`callRegion
    {
      TraceSetup(pipeline, pipelineLayout, descriptorSet, raygenRegion, missRegion, hitRegion, callRegion)
    }

    /** What the constructor's first four steps leave: the layout and the
        pool created from their tables, and the pipeline created from its
        three stages, the three shader groups in order, the two push-constant
        ranges and a recursion depth of 2. */
    ghost predicate PipelineCreated()
      reads this`layoutBindings, this`poolSizes, this`poolMaxSets, this`shaderGroups
      reads this`pipelineStages, this`maxRecursionDepth, this`pushConstantRanges
    {
      layoutBindings == DESCRIPTOR_BINDINGS && poolSizes == POOL_SIZES && poolMaxSets == MAX_SETS
      && shaderGroups == SHADER_GROUPS && pipelineStages == SHADER_STAGES && maxRecursionDepth == MAX_RECURSION_DEPTH
      && pushConstantRanges == PUSH_CONSTANT_RANGES
    }

    /** `createDescriptorSetLayout`: the six bindings, or an error. */
    method CreateDescriptorSetLayout(result: VkResult) returns (r: Result<()>)
      requires device.Valid()
      modifies this`descriptorSetLayout, this`layoutBindings, device
      ensures device.Valid()
      ensures device.calls == old(device.calls) && device.executed == old(device.executed)
      ensures device.recording == old(device.recording)
      ensures r.Ok? <==> result == Success
      ensures r.Err? ==> r.error == RuntimeError("failed to create RT descriptor set layout!")
      ensures r.Ok? ==> descriptorSetLayout == old(device.nextHandle) && device.nextHandle == old(device.nextHandle) + 1
      ensures r.Ok? ==> layoutBindings == DESCRIPTOR_BINDINGS
    {
      if result != Success {
        return Err(RuntimeError("failed to create RT descriptor set layout!"));
      }
      descriptorSetLayout := device.NewHandle();
      layoutBindings := DESCRIPTOR_BINDINGS;
      r := Ok(());
    }

    /** `createUniformBuffer`: a host-visible buffer the size of the camera
        uniform, left unwritten. */
    method CreateUniformBuffer(size: nat, driver: Buffers.BufferDriver) returns (r: Result<()>)
      requires device.Valid() && driver.address != 0
      modifies this`uniformBuffer, device
      ensures device.Valid()
      ensures device.calls == old(device.calls) && device.executed == old(device.executed)
      ensures device.recording == old(device.recording)
      ensures driver.createResult != Success ==> r == Err(RuntimeError("failed to create buffer!"))
      ensures r.Ok? ==> uniformBuffer.Some? && fresh(uniformBuffer.value) && uniformBuffer.value.device == device
                        && uniformBuffer.value.bufferType == Buffers.Uniform && uniformBuffer.value.size == size
                        && uniformBuffer.value.contents == Buffers.Unwritten(size)
    {
      var uniform :- Buffers.NewBuffer(device, Buffers.Uniform, size, None, driver);
      uniformBuffer := Some(uniform);
      r := Ok(());
    }

    /** `createDescriptorPool`: one set's worth of each descriptor, at most
        one set. */
    method CreateDescriptorPool(result: VkResult) returns (r: Result<()>)
      requires device.Valid()
      modifies this`descriptorPool, this`poolSizes, this`poolMaxSets, device
      ensures device.Valid()
      ensures device.calls == old(device.calls) && device.executed == old(device.executed)
      ensures device.recording == old(device.recording)
      ensures r.Ok? <==> result == Success
      ensures r.Err? ==> r.error == RuntimeError("failed to create RT descriptor pool!")
      ensures r.Ok? ==> descriptorPool == old(device.nextHandle) && device.nextHandle == old(device.nextHandle) + 1
      ensures r.Ok? ==> poolSizes == POOL_SIZES && poolMaxSets == MAX_SETS
    {
      if result != Success {
        return Err(RuntimeError("failed to create RT descriptor pool!"));
      }
      descriptorPool := device.NewHandle();
      poolSizes, poolMaxSets := POOL_SIZES, MAX_SETS;
      r := Ok(());
    }

    /** The first three steps of the constructor: the descriptor set
        layout, the uniform buffer and the descriptor pool. */
    method CreateDescriptorResources(layoutResult: VkResult, uniformSize: nat, uniformDriver: Buffers.BufferDriver,
                                     poolResult: VkResult)
      returns (r: Result<()>)
      requires device.Valid() && uniformDriver.address != 0
      modifies this`descriptorSetLayout, this`layoutBindings, this`uniformBuffer, this`descriptorPool
      modifies this`poolSizes, this`poolMaxSets, device
      ensures device.Valid()
      ensures device.calls == old(device.calls) && device.executed == old(device.executed)
      ensures device.recording == old(device.recording)
      ensures layoutResult != Success ==> r == Err(RuntimeError("failed to create RT descriptor set layout!"))
      ensures layoutResult == Success && uniformDriver.createResult != Success ==> r == Err(RuntimeError("failed to create buffer!"))
      ensures r.Ok? ==> poolResult == Success
      ensures r.Ok? ==> layoutBindings == DESCRIPTOR_BINDINGS && poolSizes == POOL_SIZES && poolMaxSets == MAX_SETS
      ensures r.Ok? ==> uniformBuffer.Some? && fresh(uniformBuffer.value) && uniformBuffer.value.device == device
                        && uniformBuffer.value.bufferType == Buffers.Uniform && uniformBuffer.value.size == uniformSize
    {
      var _ :- CreateDescriptorSetLayout(layoutResult);
      var _ :- CreateUniformBuffer(uniformSize, uniformDriver);
      r := CreateDescriptorPool(poolResult);
    }

    /** `createPipeline`: three shader groups appended in order, ray
        generation, miss and triangles hit, and the two raygen push-constant
        ranges. Neither the layout's nor the pipeline's creation result is
        checked. */
    method CreatePipeline()
      requires device.Valid()
      modifies this`shaderGroups, this`pushConstantRanges, this`pipelineLayout, this`pipeline
      modifies this`pipelineStages, this`maxRecursionDepth, device
      ensures device.Valid()
      ensures shaderGroups == old(shaderGroups) + SHADER_GROUPS
      ensures forall k :: |old(shaderGroups)| <= k < |shaderGroups| ==> WellFormedGroup(shaderGroups[k], SHADER_STAGES)
      ensures pushConstantRanges == PUSH_CONSTANT_RANGES
      ensures pipelineStages == SHADER_STAGES && maxRecursionDepth == MAX_RECURSION_DEPTH
      ensures pipelineLayout == old(device.nextHandle) && pipeline == old(device.nextHandle) + 1
      ensures device.nextHandle == old(device.nextHandle) + 2
      ensures device.calls == old(device.calls) && device.executed == old(device.executed)
      ensures device.recording == old(device.recording)
    {
      var group := ShaderGroup(GeneralGroup, SHADER_UNUSED, SHADER_UNUSED, SHADER_UNUSED, SHADER_UNUSED);
      group := group.(generalShader := 0);
      shaderGroups := shaderGroups + [group];
      group := group.(generalShader := 1);
      shaderGroups := shaderGroups + [group];
      group := group.(groupType := TrianglesHitGroup, generalShader := SHADER_UNUSED, closestHitShader := 2);
      shaderGroups := shaderGroups + [group];
      pushConstantRanges := PUSH_CONSTANT_RANGES;
      pipelineLayout := device.NewHandle();
      pipelineStages, maxRecursionDepth := SHADER_STAGES, MAX_RECURSION_DEPTH;
      pipeline := device.NewHandle();
    }

    /** The binding table cut from the handle storage: group `k`'s buffer
        holds the `handleSize` bytes at `k * alignment`, and each region
        covers one aligned entry at its buffer's device address. */
    ghost predicate BindingTableFrom(properties: RayTracingProperties, handles: seq<Byte>, pastStorage: seq<Byte>,
                                     raygenAddress: nat, missAddress: nat, hitAddress: nat)
      reads this`raygenSBT, this`missSBT, this`hitSBT, this`raygenRegion, this`missRegion, this`hitRegion
      reads if raygenSBT.Some? then {raygenSBT.value} else {}, if missSBT.Some? then {missSBT.value} else {}
      reads if hitSBT.Some? then {hitSBT.value} else {}
    {
      var a, h := properties.handleAlignment, properties.handleSize;
      2 * a + h <= |handles| + |pastStorage|
      && raygenSBT.Some? && missSBT.Some? && hitSBT.Some?
      && raygenSBT.value.contents == StorageRead(handles, pastStorage, 0, h)
      && missSBT.value.contents == StorageRead(handles, pastStorage, a, h)
      && hitSBT.value.contents == StorageRead(handles, pastStorage, 2 * a, h)
      && raygenRegion == StridedRegion(raygenAddress, a, a)
      && missRegion == StridedRegion(missAddress, a, a)
      && hitRegion == StridedRegion(hitAddress, a, a)
    }

    /** `createShaderBindingTable`: fetches the group handles and puts each
        group's handle in a buffer of its own, read from offsets 0,
        `alignment` and `2 * alignment` of the handle storage; each region
        covers one aligned entry at its buffer's device address. */
    method CreateShaderBindingTable(properties: RayTracingProperties, handlesResult: VkResult, handles: seq<Byte>,
                                    pastStorage: seq<Byte>, raygenDriver: Buffers.BufferDriver, missDriver: Buffers.BufferDriver,
                                    hitDriver: Buffers.BufferDriver)
      returns (r: Result<()>)
      requires device.Valid()
      requires |handles| == SbtSize(|shaderGroups|, properties.handleAlignment)
      requires 2 * properties.handleAlignment + properties.handleSize <= |handles| + |pastStorage|
      requires raygenDriver.address != 0 && missDriver.address != 0 && hitDriver.address != 0
      modifies this`raygenSBT, this`missSBT, this`hitSBT, this`raygenRegion, this`missRegion, this`hitRegion, device
      ensures device.Valid()
      ensures device.calls == old(device.calls) && device.executed == old(device.executed)
      ensures device.recording == old(device.recording)
      ensures handlesResult != Success ==> r == Err(RuntimeError("failed to get RT SBT handles!"))
      ensures r.Ok? ==> BindingTableFrom(properties, handles, pastStorage, raygenDriver.address, missDriver.address, hitDriver.address)
    {
      if handlesResult != Success {
        return Err(RuntimeError("failed to get RT SBT handles!"));
      }
      var a: nat, h: nat := properties.handleAlignment, properties.handleSize;
      var raygen :- NewSbtBuffer(device, handles, pastStorage, 0, h, raygenDriver);
      raygenSBT := Some(raygen);
      var miss :- NewSbtBuffer(device, handles, pastStorage, a, h, missDriver);
      missSBT := Some(miss);
      var hit :- NewSbtBuffer(device, handles, pastStorage, 2 * a, h, hitDriver);
      hitSBT := Some(hit);
      raygenRegion := SbtRegion(raygen, a);
      missRegion := SbtRegion(miss, a);
      hitRegion := SbtRegion(hit, a);
      r := Ok(());
    }

    /** The `outputImage` assignment of `createDescriptorSet`: a new output
        image the size of the swap chain; the image it replaces is destroyed
        by the assignment. */
    method ReplaceOutputImage(extent: Extent2D, imageDriver: Images.ImageDriver) returns (r: Result<Images.Image>)
      requires device.Valid()
      requires outputImage.Some? ==> outputImage.value.device == device
      modifies this`outputImage, device
      ensures device.Valid()
      ensures device.recording == old(device.recording) && device.executed == old(device.executed)
      ensures r.Err? ==> outputImage == old(outputImage) && device.calls == old(device.calls)
      ensures r.Ok? ==> outputImage == Some(r.value) && fresh(r.value) && r.value.device == device
                        && r.value.imageType == Images.RTOutputImage && r.value.format == B8G8R8A8Unorm
                        && r.value.createInfo.extent == Extent3D(extent.width, extent.height, 1)
                        && device.nextHandle == old(device.nextHandle) + 2
                        && device.calls == old(device.calls) + ReleaseCalls(old(outputImage))
    {
      var image :- Images.NewImage(device, extent.width, extent.height, Images.RTOutputImage, imageDriver);
      if outputImage.Some? {
        outputImage.value.Destroy();
      }
      outputImage := Some(image);
      r := Ok(image);
    }

    /** The first half of `createDescriptorSet`: the new output image,
        moved from UNDEFINED to GENERAL in a one-shot submission. */
    method NewOutputImage(extent: Extent2D, imageDriver: Images.ImageDriver) returns (r: Result<Images.Image>)
      requires device.Valid()
      requires outputImage.Some? ==> outputImage.value.device == device
      modifies this`outputImage, device
      ensures device.Valid()
      ensures device.recording == old(device.recording)
      ensures r.Err? ==> outputImage == old(outputImage)
      ensures r.Ok? ==> outputImage == Some(r.value) && fresh(r.value) && r.value.device == device
                        && r.value.imageType == Images.RTOutputImage && r.value.format == B8G8R8A8Unorm
                        && r.value.createInfo.extent == Extent3D(extent.width, extent.height, 1)
                        && device.nextHandle == old(device.nextHandle) + 3
                        && device.executed == old(device.executed)
                             + [Devices.TransitionBarrier(r.value.image, Undefined, General, true).value]
                        && device.calls == old(device.calls) + ReleaseCalls(old(outputImage))
                             + Devices.OneShotCalls(device.graphicsQueue, old(device.nextHandle) + 2)
    {
      var image :- ReplaceOutputImage(extent, imageDriver);
      var toGeneral := image.TransitionLayoutNow(Undefined, General, true);
      assert toGeneral.Ok?;
      r := Ok(image);
    }

    /** The allocation and update of `createDescriptorSet`: one set from the
        pool, then the six writes. */
    method WriteDescriptorSet(view: ImageView, allocateResult: VkResult, scene: SceneBindings) returns (r: Result<()>)
      requires device.Valid() && uniformBuffer.Some?
      modifies this`descriptorSet, device
      ensures device.Valid()
      ensures device.recording == old(device.recording) && device.executed == old(device.executed)
      ensures r.Ok? <==> allocateResult == Success
      ensures r.Err? ==> r.error == RuntimeError("failed to allocate RT descriptor sets!") && device.calls == old(device.calls)
      ensures r.Ok? ==> descriptorSet == old(device.nextHandle) && device.nextHandle == old(device.nextHandle) + 1
                        && device.calls == old(device.calls)
                             + [UpdateDescriptorSets(DescriptorWrites(descriptorSet, scene, view,
                                                                      uniformBuffer.value.buffer, uniformBuffer.value.size))]
    {
      if allocateResult != Success {
        return Err(RuntimeError("failed to allocate RT descriptor sets!"));
      }
      descriptorSet := device.NewHandle();
      var uniform := uniformBuffer.value;
      device.Log(UpdateDescriptorSets(DescriptorWrites(descriptorSet, scene, view, uniform.buffer, uniform.size)));
      r := Ok(());
    }

    /** `createDescriptorSet`: a new output image, moved to GENERAL in its
        own submission, its view, and the descriptor set pointing at it and
        at the scene. */
    method CreateDescriptorSet(extent: Extent2D, imageDriver: Images.ImageDriver, viewResult: VkResult,
                               allocateResult: VkResult, scene: SceneBindings)
      returns (r: Result<()>)
      requires device.Valid() && uniformBuffer.Some?
      requires outputImage.Some? ==> outputImage.value.device == device
      modifies this`outputImage, this`outputImageView, this`descriptorSet, device
      ensures device.Valid()
      ensures device.recording == old(device.recording)
      ensures outputImage.Some? ==> outputImage.value.device == device
      ensures r.Ok? ==> outputImage.Some? && fresh(outputImage.value) && outputImage.value.device == device
                        && outputImage.value.imageType == Images.RTOutputImage
                        && outputImage.value.createInfo.extent == Extent3D(extent.width, extent.height, 1)
      ensures r.Ok? ==> device.executed == old(device.executed)
                          + [Devices.TransitionBarrier(outputImage.value.image, Undefined, General, true).value]
      ensures r.Ok? ==> outputImageView == Some(ImageView(outputImage.value.image, B8G8R8A8Unorm, SingleRange(ColorAspect)))
      ensures r.Ok? ==> device.calls == old(device.calls) + ReleaseCalls(old(outputImage))
                          + Devices.OneShotCalls(device.graphicsQueue, old(device.nextHandle) + 2)
                          + [UpdateDescriptorSets(DescriptorWrites(descriptorSet, scene, outputImageView.value,
                                                                   uniformBuffer.value.buffer, uniformBuffer.value.size))]
      ensures allocateResult != Success || viewResult != Success ==> r.Err?
    {
      var image :- NewOutputImage(extent, imageDriver);
      var view :- image.CreateImageView(ColorAspect, viewResult);
      outputImageView := Some(view);
      r := WriteDescriptorSet(view, allocateResult, scene);
    }

    /** The trace of `recordCommandBuffer`, from binding the pipeline to
        `vkCmdTraceRaysKHR`, with `standing` as the pushed count. */
    method RecordTrace(commandBuffer: Handle, standing: U32, extent: Extent2D, output: Handle)
      requires device.Valid() && commandBuffer in device.recording
      modifies device
      ensures device.Valid()
      ensures device.recording == old(device.recording)[commandBuffer := old(device.recording)[commandBuffer]
                                    + TraceCommands(Setup(), frame, standing, extent, output)]
      ensures device.nextHandle == old(device.nextHandle) && device.executed == old(device.executed)
      ensures device.calls == old(device.calls)
    {
      ghost var before := device.recording[commandBuffer];
      device.Record(commandBuffer, BindRayTracingPipeline(pipeline));
      device.Record(commandBuffer, BindRayTracingDescriptorSet(pipelineLayout, descriptorSet));
      device.Record(commandBuffer, PushConstants(pipelineLayout, Raygen, 0, INT_SIZE, frame));
      device.Record(commandBuffer, PushConstants(pipelineLayout, Raygen, INT_SIZE, INT_SIZE, standing));
      device.Record(commandBuffer, TraceRays(raygenRegion, missRegion, hitRegion, callRegion, extent.width, extent.height, 2, output));
      assert device.recording[commandBuffer] == before + TraceCommands(Setup(), frame, standing, extent, output);
    }

    /** Everything `recordCommandBuffer` puts in the frame's command buffer
        between beginning and ending it: the trace, then the swap chain's
        copy to the back image, whose return barrier runs at once. */
    method RecordFrame(commandBuffer: Handle, extent: Extent2D, back: Handle)
      requires device.Valid() && commandBuffer in device.recording
      requires outputImage.Some? && outputImage.value.device == device
      modifies device
      ensures device.Valid()
      ensures device.recording == old(device.recording)[commandBuffer := old(device.recording)[commandBuffer]
                + FrameRecording(Setup(), frame, standingFrames, extent, outputImage.value.image, back)]
      ensures device.executed == old(device.executed) + [FrameCommands.ReturnToGeneral(outputImage.value.image)]
      ensures device.calls == old(device.calls) + Devices.OneShotCalls(device.graphicsQueue, old(device.nextHandle))
      ensures device.nextHandle == old(device.nextHandle) + 1
    {
      ghost var before := device.recording[commandBuffer];
      var output := outputImage.value;
      RecordTrace(commandBuffer, standingFrames, extent, output.image);
      ghost var traced := device.recording[commandBuffer];
      FrameCommands.CopyToBackImage(output, back, extent, commandBuffer);
      assert device.recording[commandBuffer] == traced + FrameCommands.BackImageCopy(output.image, back, extent);
      assert device.recording[commandBuffer] == before + FrameRecording(Setup(), frame, standingFrames, extent, output.image, back);
    }

    /** `recordCommandBuffer`: begins the frame's command buffer, records
        the trace with the standing-frame count (reset to zero first when
        the camera moved), has the swap chain copy the output to the back
        image, ends the buffer, waits for the device to go idle, and only
        then advances both counters, in `uint32_t`. */
    method RecordCommandBuffer(commandBuffer: Handle, hasMoved: bool, beginResult: VkResult, endResult: VkResult,
                               extent: Extent2D, back: Handle)
      returns (r: Result<()>)
      requires device.Valid() && commandBuffer in device.recording
      requires outputImage.Some? && outputImage.value.device == device
      modifies this`frame, this`standingFrames, this`moves, device
      ensures device.Valid()
      ensures r.Ok? <==> beginResult == Success && endResult == Success
      ensures beginResult != Success ==>
                r == Err(RuntimeError("failed to begin recording command buffer!"))
                && frame == old(frame) && standingFrames == old(standingFrames) && moves == old(moves)
                && device.calls == old(device.calls) + [BeginCommandBuffer(commandBuffer, false)]
                && device.recording == old(device.recording) && device.executed == old(device.executed)
      ensures beginResult == Success ==>
                device.recording == old(device.recording)[commandBuffer := old(device.recording)[commandBuffer]
                  + FrameRecording(Setup(), old(frame), Pushed(hasMoved, old(standingFrames)), extent, outputImage.value.image, back)]
      ensures beginResult == Success ==>
                device.executed == old(device.executed) + [FrameCommands.ReturnToGeneral(outputImage.value.image)]
      ensures beginResult == Success ==>
                device.calls == old(device.calls) + [BeginCommandBuffer(commandBuffer, false)]
                  + Devices.OneShotCalls(device.graphicsQueue, old(device.nextHandle))
                  + [EndCommandBuffer(commandBuffer)] + (if endResult == Success then [DeviceWaitIdle] else [])
      ensures beginResult == Success && r.Err? ==>
                r.error == RuntimeError("failed to record command buffer!")
                && frame == old(frame) && standingFrames == Pushed(hasMoved, old(standingFrames)) && moves == old(moves)
      ensures r.Ok? ==> frame == ToU32(old(frame) + 1) && moves == old(moves) + [hasMoved]
      ensures r.Ok? ==> standingFrames == ToU32(Pushed(hasMoved, old(standingFrames)) + 1)
      ensures r.Ok? && old(CountersTrack()) ==> CountersTrack()
    {
      device.Log(BeginCommandBuffer(commandBuffer, false));
      if beginResult != Success {
        return Err(RuntimeError("failed to begin recording command buffer!"));
      }
      r := RecordBegun(commandBuffer, hasMoved, endResult, extent, back);
    }

    /** `recordCommandBuffer` once the command buffer has begun. */
    method RecordBegun(commandBuffer: Handle, hasMoved: bool, endResult: VkResult, extent: Extent2D, back: Handle)
      returns (r: Result<()>)
      requires device.Valid() && commandBuffer in device.recording
      requires outputImage.Some? && outputImage.value.device == device
      modifies this`frame, this`standingFrames, this`moves, device
      ensures device.Valid()
      ensures r.Ok? <==> endResult == Success
      ensures device.recording == old(device.recording)[commandBuffer := old(device.recording)[commandBuffer]
                + FrameRecording(Setup(), old(frame), Pushed(hasMoved, old(standingFrames)), extent, outputImage.value.image, back)]
      ensures device.executed == old(device.executed) + [FrameCommands.ReturnToGeneral(outputImage.value.image)]
      ensures device.calls == old(device.calls) + Devices.OneShotCalls(device.graphicsQueue, old(device.nextHandle))
                + [EndCommandBuffer(commandBuffer)] + (if endResult == Success then [DeviceWaitIdle] else [])
      ensures r.Err? ==> r.error == RuntimeError("failed to record command buffer!")
                         && frame == old(frame) && standingFrames == Pushed(hasMoved, old(standingFrames)) && moves == old(moves)
      ensures r.Ok? ==> frame == ToU32(old(frame) + 1) && moves == old(moves) + [hasMoved]
      ensures r.Ok? ==> standingFrames == ToU32(Pushed(hasMoved, old(standingFrames)) + 1)
      ensures r.Ok? && old(CountersTrack()) ==> CountersTrack()
    {
      if hasMoved {
        standingFrames := 0;
      }
      RecordFrame(commandBuffer, extent, back);
      r := EndRecording(commandBuffer, endResult, hasMoved, old(standingFrames));
    }

    /** The end of `recordCommandBuffer`: ends the command buffer, waits for
        the device to go idle and advances the counters, or throws when the
        buffer cannot be ended. */
    method EndRecording(commandBuffer: Handle, endResult: VkResult, hasMoved: bool, ghost previous: U32)
      returns (r: Result<()>)
      requires device.Valid()
      requires standingFrames == Pushed(hasMoved, previous)
      modifies this`frame, this`standingFrames, this`moves, device
      ensures device.Valid()
      ensures device.recording == old(device.recording) && device.executed == old(device.executed)
      ensures device.nextHandle == old(device.nextHandle)
      ensures device.calls == old(device.calls) + [EndCommandBuffer(commandBuffer)]
                                + (if endResult == Success then [DeviceWaitIdle] else [])
      ensures r.Ok? <==> endResult == Success
      ensures r.Err? ==> r.error == RuntimeError("failed to record command buffer!")
                         && frame == old(frame) && standingFrames == old(standingFrames) && moves == old(moves)
      ensures r.Ok? ==> frame == ToU32(old(frame) + 1) && standingFrames == ToU32(old(standingFrames) + 1)
                        && moves == old(moves) + [hasMoved]
      ensures r.Ok? && old(frame) == ToU32(|old(moves)|) && previous == ToU32(StandingFrames(old(moves))) ==> CountersTrack()
    {
      device.Log(EndCommandBuffer(commandBuffer));
      if endResult != Success {
        return Err(RuntimeError("failed to record command buffer!"));
      }
      device.WaitIdle();
      AdvanceCounters(hasMoved, previous);
      r := Ok(());
    }

    /** The end of a completed `recordCommandBuffer`: both counters go up by
        one in `uint32_t`, and the record joins `moves`. */
    method AdvanceCounters(hasMoved: bool, ghost previous: U32)
      requires standingFrames == Pushed(hasMoved, previous)
      modifies this`frame, this`standingFrames, this`moves
      ensures frame == ToU32(old(frame) + 1) && standingFrames == ToU32(old(standingFrames) + 1)
      ensures moves == old(moves) + [hasMoved]
      ensures old(frame) == ToU32(|old(moves)|) && previous == ToU32(StandingFrames(old(moves))) ==> CountersTrack()
    {
      if frame == ToU32(|moves|) && previous == ToU32(StandingFrames(moves)) {
        CountersStep(moves, previous, hasMoved);
      }
      frame := ToU32(frame + 1);
      standingFrames := ToU32(standingFrames + 1);
      moves := moves + [hasMoved];
    }
  }

  /** One completed record keeps both counters equal to their reference
      values modulo 2^32. */
  lemma CountersStep(moves: seq<bool>, standing: U32, hasMoved: bool)
    requires standing == ToU32(StandingFrames(moves))
    ensures ToU32(Pushed(hasMoved, standing) + 1) == ToU32(StandingFrames(moves + [hasMoved]))
    ensures ToU32(ToU32(|moves|) + 1) == ToU32(|moves + [hasMoved]|)
  {
    var longer := moves + [hasMoved];
    assert longer[..|longer| - 1] == moves;
    var s := StandingFrames(moves);
    assert (s - standing) % TWO_32 == 0;
    var q := (s - standing) / TWO_32;
    assert s == standing + q * TWO_32;
    assert (s + 1) % TWO_32 == (standing + 1 + q * TWO_32) % TWO_32;
    var m := |moves|;
    var mq := (m - ToU32(m)) / TWO_32;
    assert m == ToU32(m) + mq * TWO_32;
  }

  /** The first four steps of `Raytracer::Raytracer`: the descriptor set
      layout, the uniform buffer, the descriptor pool and the pipeline. */
  method NewRaytracerPipeline(device: Devices.Device, driver: RaytracerDriver) returns (r: Result<Raytracer>)
    requires device.Valid() && driver.uniformDriver.address != 0
    modifies device
    ensures device.Valid()
    ensures device.calls == old(device.calls) && device.executed == old(device.executed)
    ensures device.recording == old(device.recording)
    ensures driver.layoutResult != Success ==> r == Err(RuntimeError("failed to create RT descriptor set layout!"))
    ensures r.Ok? ==> fresh(r.value) && r.value.device == device && r.value.PipelineCreated()
    ensures r.Ok? ==> r.value.uniformBuffer.Some? && r.value.uniformBuffer.value.bufferType == Buffers.Uniform
                      && r.value.uniformBuffer.value.size == driver.uniformSize
    ensures r.Ok? ==> r.value.callRegion == EMPTY_REGION && r.value.outputImage == None && r.value.CountersTrack()
  {
    var rt := new Raytracer(device);
    var _ :- rt.CreateDescriptorResources(driver.layoutResult, driver.uniformSize, driver.uniformDriver, driver.poolResult);
    rt.CreatePipeline();
    r := Ok(rt);
  }

  /** `Raytracer::Raytracer`: the descriptor set layout, the uniform buffer,
      the descriptor pool, the pipeline and the shader binding table, in
      that order; the output image and descriptor set come later, from
      `createDescriptorSet`. */
  method NewRaytracer(device: Devices.Device, driver: RaytracerDriver) returns (r: Result<Raytracer>)
    requires device.Valid()
    requires driver.uniformDriver.address != 0
    requires driver.raygenDriver.address != 0 && driver.missDriver.address != 0 && driver.hitDriver.address != 0
    requires |driver.handles| == SbtSize(3, driver.properties.handleAlignment)
    requires 2 * driver.properties.handleAlignment + driver.properties.handleSize <= |driver.handles| + |driver.pastStorage|
    modifies device
    ensures device.Valid()
    ensures device.calls == old(device.calls) && device.executed == old(device.executed)
    ensures device.recording == old(device.recording)
    ensures driver.layoutResult != Success ==> r == Err(RuntimeError("failed to create RT descriptor set layout!"))
    ensures r.Ok? ==> fresh(r.value) && r.value.device == device
    ensures r.Ok? ==> r.value.PipelineCreated()
                      && forall k :: 0 <= k < |r.value.shaderGroups| ==> WellFormedGroup(r.value.shaderGroups[k], SHADER_STAGES)
    ensures r.Ok? ==> r.value.uniformBuffer.Some? && r.value.uniformBuffer.value.bufferType == Buffers.Uniform
                      && r.value.uniformBuffer.value.size == driver.uniformSize
    ensures r.Ok? ==> r.value.BindingTableFrom(driver.properties, driver.handles, driver.pastStorage,
                                               driver.raygenDriver.address, driver.missDriver.address, driver.hitDriver.address)
                      && r.value.callRegion == EMPTY_REGION
    ensures r.Ok? ==> r.value.outputImage == None && r.value.CountersTrack()
  {
    var rt :- NewRaytracerPipeline(device, driver);
    var _ :- rt.CreateShaderBindingTable(driver.properties, driver.handlesResult, driver.handles, driver.pastStorage,
                                         driver.raygenDriver, driver.missDriver, driver.hitDriver);
    assert forall k :: 0 <= k < |SHADER_GROUPS| ==> WellFormedGroup(SHADER_GROUPS[k], SHADER_STAGES);
    r := Ok(rt);
  }
}
