/** The swap chain (`SwapChain`): the selection rules for the surface
    format, present mode, extent and image count; the image, view and
    framebuffer tuple it builds, tears down and rebuilds; and `drawFrame`,
    the per-frame state machine over the frame slot `currentFrame`. The
    surface queries, window size polls and driver results are inputs. */
module SwapChains {
  import opened Wrappers
  import opened Vulkan
  import PD = PhysicalDevices
  import Devices
  import Images
  import Raytracers
  import FrameCommands
  import Sequences

  // ---------------------------------------------------------------------
  // Selection rules

  /** A number of frame slots: positive and within `uint32_t`. */
  type FrameCount = n: nat | 0 < n < 0x1_0000_0000 witness 2
  /** The number of frames that may be in flight at once, each with its
      own slot of command buffer, semaphores and fence. The engine sets it
      to 2; it is left open here, so every contract about frame slots holds
      for any positive count. */
  const MAX_FRAMES_IN_FLIGHT: FrameCount

  const PREFERRED_SURFACE_FORMAT: SurfaceFormat := SurfaceFormat(B8G8R8A8Srgb, SrgbNonlinear)

  predicate IsPreferredFormat(format: SurfaceFormat) {
    format.format == B8G8R8A8Srgb && format.colorSpace == SrgbNonlinear
  }

  /** The format `chooseSwapSurfaceFormat` settles on. */
  function SurfaceFormatFor(formats: seq<SurfaceFormat>): SurfaceFormat
    requires |formats| > 0
  {
    if PREFERRED_SURFACE_FORMAT in formats then PREFERRED_SURFACE_FORMAT else formats[0]
  }

  /** `chooseSwapSurfaceFormat`: the first offered format that is sRGB
      BGRA8 in the non-linear sRGB colour space, or else the first offered
      format. The list is never empty here: a device with no surface format
      is not selected. */
  method ChooseSwapSurfaceFormat(formats: seq<SurfaceFormat>) returns (r: SurfaceFormat)
    requires |formats| > 0
    ensures r in formats
    ensures (exists i :: 0 <= i < |formats| && IsPreferredFormat(formats[i])) ==> r == PREFERRED_SURFACE_FORMAT
    ensures (forall i :: 0 <= i < |formats| ==> !IsPreferredFormat(formats[i])) ==> r == formats[0]
    ensures r == SurfaceFormatFor(formats)
  {
    for i := 0 to |formats|
      invariant forall k :: 0 <= k < i ==> !IsPreferredFormat(formats[k])
    {
      if IsPreferredFormat(formats[i]) {
        return formats[i];
      }
    }
    return formats[0];
  }

  /** The mode `chooseSwapPresentMode` looks for: MAILBOX with vsync,
      IMMEDIATE without. */
  function WantedPresentMode(vsync: bool): PresentMode {
    if vsync then Mailbox else Immediate
  }

  /** The mode `chooseSwapPresentMode` settles on. */
  function PresentModeFor(modes: seq<PresentMode>, vsync: bool): PresentMode {
    if WantedPresentMode(vsync) in modes then WantedPresentMode(vsync) else Fifo
  }

  /** `chooseSwapPresentMode`: the wanted mode when it is offered, FIFO
      (which every surface supports) otherwise. */
  method ChooseSwapPresentMode(modes: seq<PresentMode>, vsync: bool) returns (r: PresentMode)
    ensures WantedPresentMode(vsync) in modes ==> r == WantedPresentMode(vsync)
    ensures WantedPresentMode(vsync) !in modes ==> r == Fifo
    ensures r == Fifo || r in modes
    ensures r == PresentModeFor(modes, vsync)
  {
    for i := 0 to |modes|
      invariant WantedPresentMode(vsync) !in modes[..i]
    {
      if modes[i] == WantedPresentMode(vsync) {
        return modes[i];
      }
    }
    assert modes[..|modes|] == modes;
    return Fifo;
  }

  /** `std::clamp`: `lo` below the range, `hi` above it, `v` inside. */
  function Clamp(v: int, lo: int, hi: int): (r: int)
    ensures lo <= hi ==> lo <= r <= hi
    ensures lo <= v <= hi ==> r == v
    ensures r == v || r == lo || r == hi
  {
    if v < lo then lo else if hi < v then hi else v
  }

  /** What `glfwGetFramebufferSize` reports, in pixels. */
  datatype FramebufferSize = FramebufferSize(width: int, height: int)

  predicate NonZero(size: FramebufferSize) {
    size.width != 0 && size.height != 0
  }

  /** `chooseSwapExtent`: the surface's current extent, unless its width is
      the special value 0xFFFFFFFF, in which case the window's framebuffer
      size, cast to `uint32_t` and clamped to the surface's limits. */
  function ChooseSwapExtent(capabilities: SurfaceCapabilities, size: FramebufferSize): (r: Extent2D)
    ensures capabilities.currentExtent.width != UINT32_MAX ==> r == capabilities.currentExtent
    ensures capabilities.currentExtent.width == UINT32_MAX ==>
              (capabilities.minImageExtent.width <= capabilities.maxImageExtent.width ==>
                 capabilities.minImageExtent.width <= r.width <= capabilities.maxImageExtent.width)
              && (capabilities.minImageExtent.height <= capabilities.maxImageExtent.height ==>
                    capabilities.minImageExtent.height <= r.height <= capabilities.maxImageExtent.height)
    ensures capabilities.currentExtent.width == UINT32_MAX
            && 0 <= size.width && capabilities.minImageExtent.width <= size.width <= capabilities.maxImageExtent.width
            ==> r.width == size.width
    ensures capabilities.currentExtent.width == UINT32_MAX
            && 0 <= size.height && capabilities.minImageExtent.height <= size.height <= capabilities.maxImageExtent.height
            ==> r.height == size.height
  {
    if capabilities.currentExtent.width != UINT32_MAX then capabilities.currentExtent
    else
      Extent2D(Clamp(ToU32(size.width), capabilities.minImageExtent.width, capabilities.maxImageExtent.width),
               Clamp(ToU32(size.height), capabilities.minImageExtent.height, capabilities.maxImageExtent.height))
  }

  /** A negative framebuffer size wraps in the cast: clamping then sees a
      huge width and picks the maximum. */
  lemma NegativeWidthClampsHigh(capabilities: SurfaceCapabilities, size: FramebufferSize)
    requires capabilities.currentExtent.width == UINT32_MAX
    requires capabilities.minImageExtent.width <= capabilities.maxImageExtent.width
    requires size.width < 0 && capabilities.maxImageExtent.width < size.width + TWO_32
    ensures ChooseSwapExtent(capabilities, size).width == capabilities.maxImageExtent.width
  {
    assert ToU32(size.width) == size.width + TWO_32;
  }

  /** The image count requested in `create`: one more than the minimum, in
      `uint32_t`, lowered to the maximum when there is one (a maximum of 0
      means no limit). */
  function ImageCount(capabilities: SurfaceCapabilities): (count: U32)
    ensures capabilities.maxImageCount > 0 ==> count <= capabilities.maxImageCount
    ensures capabilities.minImageCount < UINT32_MAX
            && (capabilities.maxImageCount == 0 || capabilities.minImageCount < capabilities.maxImageCount)
            ==> count == capabilities.minImageCount + 1
    ensures capabilities.minImageCount < UINT32_MAX && capabilities.minImageCount <= capabilities.maxImageCount
            ==> capabilities.minImageCount <= count
    ensures capabilities.minImageCount == UINT32_MAX ==> count == 0
  {
    var count := ToU32(capabilities.minImageCount + 1);
    if capabilities.maxImageCount > 0 && count > capabilities.maxImageCount then capabilities.maxImageCount else count
  }

  /** The `VkSwapchainCreateInfoKHR` of `create`. */
  function SwapchainInfo(capabilities: SurfaceCapabilities, surfaceFormat: SurfaceFormat, presentMode: PresentMode,
                         extent: Extent2D, graphicsFamily: nat, presentFamily: nat): SwapchainCreateInfo
  {
    SwapchainCreateInfo(
      ImageCount(capabilities), surfaceFormat.format, surfaceFormat.colorSpace, extent, 1,
      {ColorAttachment, ImageTransferDst},
      if graphicsFamily != presentFamily then Concurrent([graphicsFamily, presentFamily]) else Exclusive,
      capabilities.currentTransform, true, presentMode, true)
  }

  /** The answers of the driver for one `create`. */
  datatype CreateInputs = CreateInputs(
    surface: PD.SwapChainSupportDetails,
    size: FramebufferSize,
    createResult: VkResult,
    images: seq<Handle>)

  /** What the driver is asked for in `create`. */
  function CreateInfoOf(families: PD.QueueFamilyIndices, inputs: CreateInputs, vsync: bool): SwapchainCreateInfo
    requires |inputs.surface.formats| > 0 && families.IsComplete()
  {
    SwapchainInfo(inputs.surface.capabilities, SurfaceFormatFor(inputs.surface.formats),
                  PresentModeFor(inputs.surface.presentModes, vsync),
                  ChooseSwapExtent(inputs.surface.capabilities, inputs.size),
                  families.graphicsFamily.value, families.presentFamily.value)
  }

  /** The calls of `create`: the framebuffer size query, made only when the
      extent comes from the window, then the creation itself. */
  function CreateCalls(families: PD.QueueFamilyIndices, inputs: CreateInputs, vsync: bool): seq<Call>
    requires |inputs.surface.formats| > 0 && families.IsComplete()
  {
    (if inputs.surface.capabilities.currentExtent.width == UINT32_MAX then [GetFramebufferSize] else [])
    + [CreateSwapchain(CreateInfoOf(families, inputs, vsync))]
  }

  /** The result of the `i`-th creation in a loop; results beyond the given
      ones are successes. */
  function ResultAt(results: seq<VkResult>, i: nat): VkResult {
    if i < |results| then results[i] else Success
  }

  /** The swap chain image views: one colour view per image, in the swap
      chain format. */
  function ViewsOf(images: seq<Handle>, format: Format): (views: seq<ImageView>)
    ensures |views| == |images|
    ensures forall k :: 0 <= k < |views| ==> views[k] == ImageView(images[k], format, SingleRange(ColorAspect))
    decreases |images|
  {
    if |images| == 0 then []
    else ViewsOf(images[..|images| - 1], format) + [ImageView(images[|images| - 1], format, SingleRange(ColorAspect))]
  }

  /** The rasterizer's objects the swap chain attaches and destroys; its
      source is not part of this model. */
  datatype RasterizerState = RasterizerState(renderPass: Handle, depthImageView: ImageView, depthImageMemory: Handle)

  /** The framebuffers of `createFramebuffers`: one per swap chain image
      view, each with that view and the rasterizer's depth view, the swap
      chain's size and one layer, for the rasterizer's render pass. */
  function FramebuffersOf(views: seq<ImageView>, rasterizer: RasterizerState, extent: Extent2D): (framebuffers: seq<Framebuffer>)
    ensures |framebuffers| == |views|
    ensures forall k :: 0 <= k < |framebuffers| ==>
              framebuffers[k] == Framebuffer(rasterizer.renderPass, [views[k], rasterizer.depthImageView],
                                             extent.width, extent.height, 1)
    decreases |views|
  {
    if |views| == 0 then []
    else FramebuffersOf(views[..|views| - 1], rasterizer, extent)
         + [Framebuffer(rasterizer.renderPass, [views[|views| - 1], rasterizer.depthImageView], extent.width, extent.height, 1)]
  }

  /** The results of the three creations of one frame slot in
      `createSyncObjects`, in the order they are made. */
  datatype SyncResults = SyncResults(imageAvailable: VkResult, renderFinished: VkResult, inFlight: VkResult)

  predicate AllCreated(results: SyncResults) {
    results.imageAvailable == Success && results.renderFinished == Success && results.inFlight == Success
  }

  /** The results of the `i`-th slot; slots beyond the given ones succeed. */
  function SyncResultAt(results: seq<SyncResults>, i: nat): SyncResults {
    if i < |results| then results[i] else SyncResults(Success, Success, Success)
  }

  // ---------------------------------------------------------------------
  // Teardown

  /** One `vkDestroyFramebuffer` per framebuffer, in order. */
  function DestroyFramebufferCalls(framebuffers: seq<Framebuffer>): (calls: seq<Call>)
    ensures |calls| == |framebuffers|
    ensures forall k :: 0 <= k < |calls| ==> calls[k] == DestroyFramebuffer(framebuffers[k])
    decreases |framebuffers|
  {
    if |framebuffers| == 0 then []
    else DestroyFramebufferCalls(framebuffers[..|framebuffers| - 1]) + [DestroyFramebuffer(framebuffers[|framebuffers| - 1])]
  }

  /** One `vkDestroyImageView` per view, in order. */
  function DestroyViewCalls(views: seq<ImageView>): (calls: seq<Call>)
    ensures |calls| == |views|
    ensures forall k :: 0 <= k < |calls| ==> calls[k] == DestroyImageView(views[k])
    decreases |views|
  {
    if |views| == 0 then []
    else DestroyViewCalls(views[..|views| - 1]) + [DestroyImageView(views[|views| - 1])]
  }

  /** `vkDestroyImageView` on a view that may be `VK_NULL_HANDLE`, which
      does nothing. */
  function DestroyOptionalViewCalls(view: Option<ImageView>): seq<Call> {
    if view.Some? then [DestroyImageView(view.value)] else []
  }

  /** Everything `cleanup` destroys, in its order: the ray tracing output
      view, the rasterizer's depth view and memory, the framebuffers, the
      swap chain image views and the swap chain. */
  function CleanupCalls(outputView: Option<ImageView>, rasterizer: RasterizerState, framebuffers: seq<Framebuffer>,
                        views: seq<ImageView>, swapChain: Handle): seq<Call>
  {
    DestroyOptionalViewCalls(outputView)
    + [DestroyImageView(rasterizer.depthImageView), FreeMemory(rasterizer.depthImageMemory)]
    + DestroyFramebufferCalls(framebuffers) + DestroyViewCalls(views) + [DestroySwapchain(swapChain)]
  }

  /** Calls that belong to drawing a frame: none of them is made while the
      swap chain is rebuilt. */
  predicate FrameWork(call: Call) {
    call.ResetFence? || call.ResetCommandBuffer? || call.QueueSubmit? || call.QueuePresent? || call.BeginCommandBuffer?
  }

  predicate NoFrameWork(calls: seq<Call>) {
    forall k :: 0 <= k < |calls| ==> !FrameWork(calls[k])
  }

  /** Joining two call lists with no frame work in them adds none. */
  lemma NoFrameWorkAppend(a: seq<Call>, b: seq<Call>)
    requires NoFrameWork(a) && NoFrameWork(b)
    ensures NoFrameWork(a + b)
  {
    forall k | 0 <= k < |a + b|
      ensures !FrameWork((a + b)[k])
    {
      if k >= |a| {
        assert (a + b)[k] == b[k - |a|];
      }
    }
  }

  /** `cleanup` destroys every framebuffer and every view, and the swap
      chain last. */
  lemma CleanupDestroysEach(outputView: Option<ImageView>, rasterizer: RasterizerState, framebuffers: seq<Framebuffer>,
                            views: seq<ImageView>, swapChain: Handle)
    ensures |CleanupCalls(outputView, rasterizer, framebuffers, views, swapChain)|
            == |DestroyOptionalViewCalls(outputView)| + 3 + |framebuffers| + |views|
    ensures forall k :: 0 <= k < |framebuffers| ==>
              DestroyFramebuffer(framebuffers[k]) in CleanupCalls(outputView, rasterizer, framebuffers, views, swapChain)
    ensures forall k :: 0 <= k < |views| ==>
              DestroyImageView(views[k]) in CleanupCalls(outputView, rasterizer, framebuffers, views, swapChain)
    ensures CleanupCalls(outputView, rasterizer, framebuffers, views, swapChain)[|framebuffers| + |views| + 2 + |DestroyOptionalViewCalls(outputView)|]
            == DestroySwapchain(swapChain)
  {
    var head := DestroyOptionalViewCalls(outputView) + [DestroyImageView(rasterizer.depthImageView), FreeMemory(rasterizer.depthImageMemory)];
    var fbs := DestroyFramebufferCalls(framebuffers);
    var vs := DestroyViewCalls(views);
    var calls := CleanupCalls(outputView, rasterizer, framebuffers, views, swapChain);
    assert calls == head + fbs + vs + [DestroySwapchain(swapChain)];
    forall k | 0 <= k < |framebuffers|
      ensures DestroyFramebuffer(framebuffers[k]) in calls
    {
      assert calls[|head| + k] == fbs[k];
    }
    forall k | 0 <= k < |views|
      ensures DestroyImageView(views[k]) in calls
    {
      assert calls[|head| + |fbs| + k] == vs[k];
    }
  }

  /** The window size polls of `recreate` after the first: each queries the
      size and then waits for events. */
  function PollCalls(polls: nat): (calls: seq<Call>)
    ensures |calls| == 2 * polls
    ensures NoFrameWork(calls)
  {
    if polls == 0 then [] else PollCalls(polls - 1) + [GetFramebufferSize, WaitEvents]
  }

  /** The number of size polls `recreate` makes after the first one: the
      index of the first nonzero size. */
  function PollsNeeded(sizes: seq<FramebufferSize>): (n: nat)
    requires exists i :: 0 <= i < |sizes| && NonZero(sizes[i])
    ensures n < |sizes| && NonZero(sizes[n])
    ensures forall j :: 0 <= j < n ==> !NonZero(sizes[j])
    decreases |sizes|
  {
    if NonZero(sizes[0]) then 0
    else
      assert exists i :: 0 <= i < |sizes| - 1 && NonZero(sizes[1..][i]) by {
        var i :| 0 <= i < |sizes| && NonZero(sizes[i]);
        assert NonZero(sizes[1..][i - 1]);
      }
      1 + PollsNeeded(sizes[1..])
  }

  /** The inputs of one `recreate`: the window sizes polled until one is
      nonzero, the driver's answers for `create`, one result per image view
      and per framebuffer, and the rasterizer's rebuilt depth resources. */
  datatype RebuildInputs = RebuildInputs(
    sizes: seq<FramebufferSize>,
    create: CreateInputs,
    viewResults: seq<VkResult>,
    rasterizer: RasterizerState,
    framebufferResults: seq<VkResult>)

  /** One command buffer, two semaphores and one fence per frame slot,
      the current slot among them, and each slot's command buffer kept by
      the device for reuse. */
  predicate SlotsValid(commandBuffers: seq<Handle>, imageAvailable: seq<Handle>, renderFinished: seq<Handle>,
                       inFlight: seq<Handle>, currentFrame: nat, recording: map<Handle, seq<Command>>)
  {
    |commandBuffers| == MAX_FRAMES_IN_FLIGHT && |imageAvailable| == MAX_FRAMES_IN_FLIGHT
    && |renderFinished| == MAX_FRAMES_IN_FLIGHT && |inFlight| == MAX_FRAMES_IN_FLIGHT
    && currentFrame < MAX_FRAMES_IN_FLIGHT
    && (forall i :: 0 <= i < MAX_FRAMES_IN_FLIGHT ==> commandBuffers[i] in recording)
  }

  /** `create` succeeds and every swap chain image gets its view. */
  predicate ViewsCreated(inputs: RebuildInputs) {
    inputs.create.createResult == Success
    && forall k :: 0 <= k < |inputs.create.images| ==> ResultAt(inputs.viewResults, k) == Success
  }

  /** Every swap chain image view gets its framebuffer. */
  predicate FramebuffersCreated(inputs: RebuildInputs) {
    forall k :: 0 <= k < |inputs.create.images| ==> ResultAt(inputs.framebufferResults, k) == Success
  }

  /** The constructor's image steps all succeed: `create`, then a view
      for every image and a framebuffer for every view. */
  predicate ImageStepsSucceed(create: CreateInputs, viewResults: seq<VkResult>, framebufferResults: seq<VkResult>) {
    create.createResult == Success
    && (forall k :: 0 <= k < |create.images| ==> ResultAt(viewResults, k) == Success)
    && (forall k :: 0 <= k < |create.images| ==> ResultAt(framebufferResults, k) == Success)
  }

  /** The constructor's frame slot steps both succeed: every slot gets its
      semaphores and fence, and the command buffers are allocated. */
  predicate SlotStepsSucceed(syncResults: seq<SyncResults>, commandBufferResult: VkResult) {
    (forall k :: 0 <= k < MAX_FRAMES_IN_FLIGHT ==> AllCreated(SyncResultAt(syncResults, k)))
    && commandBufferResult == Success
  }

  /** The calls of `recreate` up to and including `cleanup`: the size
      polls, the wait for the device, and the destruction of the old
      objects. */
  function TeardownCalls(polls: nat, outputView: Option<ImageView>, rasterizer: RasterizerState,
                         framebuffers: seq<Framebuffer>, views: seq<ImageView>, swapChain: Handle): seq<Call>
  {
    [GetFramebufferSize] + PollCalls(polls) + [DeviceWaitIdle] + CleanupCalls(outputView, rasterizer, framebuffers, views, swapChain)
  }

  /** The calls of `recreate` after `cleanup`: those of `create`, then the
      rasterizer's `refresh` once the image views exist. */
  function RebuildCalls(families: PD.QueueFamilyIndices, inputs: RebuildInputs, vsync: bool): seq<Call>
    requires |inputs.create.surface.formats| > 0 && families.IsComplete()
  {
    CreateCalls(families, inputs.create, vsync) + (if ViewsCreated(inputs) then [RefreshRasterizer] else [])
  }

  /** Rebuilding the swap chain, whether it succeeds or not, resets, records,
      submits and presents nothing. */
  lemma RecreateDoesNoFrameWork(polls: nat, outputView: Option<ImageView>, rasterizer: RasterizerState,
                                framebuffers: seq<Framebuffer>, views: seq<ImageView>, swapChain: Handle,
                                families: PD.QueueFamilyIndices, inputs: RebuildInputs, vsync: bool)
    requires |inputs.create.surface.formats| > 0 && families.IsComplete()
    ensures NoFrameWork(TeardownCalls(polls, outputView, rasterizer, framebuffers, views, swapChain)
                        + RebuildCalls(families, inputs, vsync))
  {
    var cleanup := CleanupCalls(outputView, rasterizer, framebuffers, views, swapChain);
    CleanupOnlyDestroys(outputView, rasterizer, framebuffers, views, swapChain);
    assert NoFrameWork(cleanup);
    NoFrameWorkAppend([GetFramebufferSize], PollCalls(polls));
    NoFrameWorkAppend([GetFramebufferSize] + PollCalls(polls), [DeviceWaitIdle]);
    NoFrameWorkAppend([GetFramebufferSize] + PollCalls(polls) + [DeviceWaitIdle],
                      CleanupCalls(outputView, rasterizer, framebuffers, views, swapChain));
    var rebuild := RebuildCalls(families, inputs, vsync);
    assert NoFrameWork(rebuild) by {
      forall k | 0 <= k < |rebuild|
        ensures !FrameWork(rebuild[k])
      {
      }
    }
    NoFrameWorkAppend(TeardownCalls(polls, outputView, rasterizer, framebuffers, views, swapChain), rebuild);
  }

  // ---------------------------------------------------------------------
  // Drawing a frame

  /** What one `drawFrame` is given from outside: the result of acquiring
      an image and the index it names, whether the camera moved, the
      results of beginning and ending the ray tracing record, of the
      submission and of the present, and what a `recreate` during the
      frame would see. */
  datatype FrameInputs = FrameInputs(
    acquireResult: VkResult,
    imageIndex: U32,
    hasMoved: bool,
    beginResult: VkResult,
    endResult: VkResult,
    submitResult: VkResult,
    presentResult: VkResult,
    rebuild: RebuildInputs)

  /** The acquire results after which the frame is drawn; out of date
      recreates the swap chain instead and any other result throws. */
  predicate AcquireProceeds(result: VkResult) {
    result == Success || result == Suboptimal
  }

  /** After presenting, the swap chain is recreated when the present
      reports it out of date or suboptimal, or when the window was
      resized. */
  predicate PresentWantsRecreate(result: VkResult, resized: bool) {
    result == ErrorOutOfDate || result == Suboptimal || resized
  }

  /** The ray tracer's host calls while recording a frame that records
      successfully: begin, the one-shot submission of the return barrier,
      end, and the wait for the device. */
  function RaytracerRecordCalls(commandBuffer: Handle, queue: Queue, oneShot: Handle): (calls: seq<Call>)
    ensures |calls| == 9 && calls[0] == BeginCommandBuffer(commandBuffer, false)
  {
    [BeginCommandBuffer(commandBuffer, false)] + Devices.OneShotCalls(queue, oneShot)
      + [EndCommandBuffer(commandBuffer)] + [DeviceWaitIdle]
  }

  /** The host calls of a frame that renders, from the slot's objects and
      the recording's own calls: the uniform updates, the resets of the
      slot's fence and command buffer, the recording, and the submission
      that waits on `imageAvailable`, signals `renderFinished` and fences
      with `inFlight`. */
  function SlotCalls(slot: nat, commandBuffer: Handle, imageAvailable: Handle, renderFinished: Handle, inFlight: Handle,
                     recordCalls: seq<Call>, queue: Queue): seq<Call>
  {
    [UpdateUniforms(slot), ResetFence(inFlight), Call.ResetCommandBuffer(commandBuffer)] + recordCalls
    + [Call.QueueSubmit(queue, commandBuffer, Some(imageAvailable), Some(renderFinished), inFlight)]
  }

  /** A frame whose recording resets no fence (the ray tracer's, or the
      rasterizer's single pass) resets its fence exactly once and before
      the command buffer is begun or anything is submitted, and ends by
      submitting the command buffer it reset with that fence. */
  lemma FenceResetBeforeRecording(slot: nat, commandBuffer: Handle, imageAvailable: Handle, renderFinished: Handle,
                                  inFlight: Handle, recordCalls: seq<Call>, queue: Queue)
    requires forall k :: 0 <= k < |recordCalls| ==> !recordCalls[k].ResetFence?
    ensures var calls := SlotCalls(slot, commandBuffer, imageAvailable, renderFinished, inFlight, recordCalls, queue);
            calls[1] == ResetFence(inFlight)
            && (forall k :: 0 <= k < |calls| && calls[k].ResetFence? ==> k == 1)
            && (forall k :: 0 <= k < |calls| && (calls[k].BeginCommandBuffer? || calls[k].QueueSubmit?) ==> 2 < k)
            && calls[|calls| - 1] == Call.QueueSubmit(queue, commandBuffer, Some(imageAvailable), Some(renderFinished), inFlight)
  {
  }

  /** The ray tracer's record resets no fence. */
  lemma RaytracerRecordResetsNoFence(commandBuffer: Handle, queue: Queue, oneShot: Handle)
    ensures var calls := RaytracerRecordCalls(commandBuffer, queue, oneShot);
            forall k :: 0 <= k < |calls| ==> !calls[k].ResetFence?
  {
  }

  /** `recreate` asks for the window size until it is nonzero and waits for
      the device to go idle before it destroys anything: every call before
      the wait is a size query or an event wait, and every call after it
      destroys or frees. */
  lemma TeardownWaitsFirst(polls: nat, outputView: Option<ImageView>, rasterizer: RasterizerState,
                           framebuffers: seq<Framebuffer>, views: seq<ImageView>, swapChain: Handle)
    ensures var calls := TeardownCalls(polls, outputView, rasterizer, framebuffers, views, swapChain);
            calls[2 * polls + 1] == DeviceWaitIdle
            && (forall k :: 0 <= k <= 2 * polls ==> calls[k] == GetFramebufferSize || calls[k] == WaitEvents)
            && (forall k :: 2 * polls + 1 < k < |calls| ==>
                  calls[k].DestroyImageView? || calls[k].FreeMemory? || calls[k].DestroyFramebuffer? || calls[k].DestroySwapchain?)
  {
    var head := [GetFramebufferSize] + PollCalls(polls);
    var cleanup := CleanupCalls(outputView, rasterizer, framebuffers, views, swapChain);
    PollCallsAlternate(polls);
    CleanupOnlyDestroys(outputView, rasterizer, framebuffers, views, swapChain);
    var calls := TeardownCalls(polls, outputView, rasterizer, framebuffers, views, swapChain);
    assert calls == head + [DeviceWaitIdle] + cleanup;
    forall k | 2 * polls + 1 < k < |calls|
      ensures calls[k] == cleanup[k - 2 * polls - 2]
    {
    }
    forall k | 1 <= k <= 2 * polls
      ensures calls[k] == PollCalls(polls)[k - 1]
    {
    }
  }

  /** The polls alternate: a size query, then an event wait. */
  lemma {:induction false} PollCallsAlternate(polls: nat)
    ensures forall k :: 0 <= k < 2 * polls ==> PollCalls(polls)[k] == if k % 2 == 0 then GetFramebufferSize else WaitEvents
  {
    if polls > 0 {
      PollCallsAlternate(polls - 1);
      var calls := PollCalls(polls);
      forall k | 0 <= k < 2 * polls
        ensures calls[k] == if k % 2 == 0 then GetFramebufferSize else WaitEvents
      {
        if k < 2 * (polls - 1) {
          assert calls[k] == PollCalls(polls - 1)[k];
        }
      }
    }
  }

  /** `cleanup` only destroys views, framebuffers and the swap chain and
      frees memory. */
  lemma CleanupOnlyDestroys(outputView: Option<ImageView>, rasterizer: RasterizerState, framebuffers: seq<Framebuffer>,
                            views: seq<ImageView>, swapChain: Handle)
    ensures var calls := CleanupCalls(outputView, rasterizer, framebuffers, views, swapChain);
            forall k :: 0 <= k < |calls| ==>
              calls[k].DestroyImageView? || calls[k].FreeMemory? || calls[k].DestroyFramebuffer? || calls[k].DestroySwapchain?
  {
    var head := DestroyOptionalViewCalls(outputView) + [DestroyImageView(rasterizer.depthImageView), FreeMemory(rasterizer.depthImageMemory)];
    var fbs := DestroyFramebufferCalls(framebuffers);
    var vs := DestroyViewCalls(views);
    var calls := CleanupCalls(outputView, rasterizer, framebuffers, views, swapChain);
    assert calls == head + fbs + vs + [DestroySwapchain(swapChain)];
    forall k | 0 <= k < |calls|
      ensures calls[k].DestroyImageView? || calls[k].FreeMemory? || calls[k].DestroyFramebuffer? || calls[k].DestroySwapchain?
    {
      if k < |head| {
        assert calls[k] == head[k];
      } else if k < |head| + |fbs| {
        assert calls[k] == fbs[k - |head|];
      } else if k < |head| + |fbs| + |vs| {
        assert calls[k] == vs[k - |head| - |fbs|];
      }
    }
  }

  /** What `recreate` replaces: the swap chain, its images, format and
      extent, their views and framebuffers, and the rasterizer's depth
      resources. */
  datatype ChainState = ChainState(swapChain: Handle, images: seq<Handle>, format: Format, extent: Extent2D,
                                   views: seq<ImageView>, framebuffers: seq<Framebuffer>, rasterizer: RasterizerState)

  // ---------------------------------------------------------------------
  // The swap chain object

  class SwapChain {
    const device: Devices.Device
    const raytracer: Raytracers.Raytracer
    const vsync: bool
    /** `findQueueFamilies` of the device's adapter, which `create` asks
        for each time and which never changes. */
    const families: PD.QueueFamilyIndices

    var useRaytracer: bool
    /** `Context::framebufferResized`, set by the window's resize callback. */
    var framebufferResized: bool

    var swapChain: Handle
    var swapChainImages: seq<Handle>
    var swapChainImageFormat: Format
    var swapChainExtent: Extent2D
    var swapChainImageViews: seq<ImageView>
    var swapChainFramebuffers: seq<Framebuffer>
    var rasterizer: RasterizerState

    var commandBuffers: seq<Handle>
    var imageAvailableSemaphores: seq<Handle>
    var renderFinishedSemaphores: seq<Handle>
    var inFlightFences: seq<Handle>
    var currentFrame: U32

    /** The device is usable, the adapter has both queue families, the ray
        tracer and its output image belong to this swap chain's device, and
        the frame slots are in place. */
    /** The objects a frame keeps unless it recreates the swap chain. */
    ghost function Chain(): ChainState
      reads this`swapChain, this`swapChainImages, this`swapChainImageFormat, this`swapChainExtent
      reads this`swapChainImageViews, this`swapChainFramebuffers, this`rasterizer
    {
      ChainState(swapChain, swapChainImages, swapChainImageFormat, swapChainExtent,
                 swapChainImageViews, swapChainFramebuffers, rasterizer)
    }

    ghost predicate Valid()
      reads this`commandBuffers, this`imageAvailableSemaphores, this`renderFinishedSemaphores, this`inFlightFences
      reads this`currentFrame, device`nextHandle, device`recording, raytracer`outputImage
    {
      device.Valid()
      && families.IsComplete()
      && raytracer.device == device
      && (raytracer.outputImage.Some? ==> raytracer.outputImage.value.device == device)
      && SlotsValid(commandBuffers, imageAvailableSemaphores, renderFinishedSemaphores, inFlightFences,
                    currentFrame, device.recording)
    }

    /** The object before the constructor's creation steps: no images, no
        frame slots, slot 0, ray tracing on and vsync off. */
    constructor (device: Devices.Device, raytracer: Raytracers.Raytracer, rasterizer: RasterizerState)
      ensures this.device == device && this.raytracer == raytracer
      ensures this.rasterizer == rasterizer
      ensures families == PD.SelectedQueueFamilies(device.physical.queueFamilies)
      ensures useRaytracer && !vsync && !framebufferResized && currentFrame == 0
      ensures swapChainImages == [] && swapChainImageViews == [] && swapChainFramebuffers == []
      ensures commandBuffers == [] && imageAvailableSemaphores == [] && renderFinishedSemaphores == [] && inFlightFences == []
    {
      this.device := device;
      this.raytracer := raytracer;
      families := PD.SelectedQueueFamilies(device.physical.queueFamilies);
      vsync := false;
      useRaytracer := true;
      framebufferResized := false;
      swapChain := 0;
      swapChainImages := [];
      swapChainImageFormat := B8G8R8A8Srgb;
      swapChainExtent := Extent2D(0, 0);
      swapChainImageViews := [];
      swapChainFramebuffers := [];
      this.rasterizer := rasterizer;
      commandBuffers := [];
      imageAvailableSemaphores := [];
      renderFinishedSemaphores := [];
      inFlightFences := [];
      currentFrame := 0;
    }

    /** `Context::framebufferResizeCallback` */
    method FramebufferResizeCallback()
      modifies this`framebufferResized
      ensures framebufferResized
    {
      framebufferResized := true;
    }

    /** `create`: chooses the format, present mode, extent and image count,
        creates the swap chain, and takes the images the driver returns. */
    method Create(inputs: CreateInputs) returns (r: Result<()>)
      requires device.Valid()
      requires |inputs.surface.formats| > 0 && families.IsComplete()
      modifies this`swapChain, this`swapChainImages, this`swapChainImageFormat, this`swapChainExtent
      modifies device`calls, device`nextHandle
      ensures device.Valid()
      ensures device.calls == old(device.calls) + CreateCalls(families, inputs, vsync)
      ensures r.Ok? <==> inputs.createResult == Success
      ensures r.Err? ==> r.error == RuntimeError("failed to create swap chain!") && device.nextHandle == old(device.nextHandle)
      ensures r.Ok? ==> swapChain == old(device.nextHandle) && device.nextHandle == old(device.nextHandle) + 1
      ensures r.Ok? ==> swapChainImages == inputs.images
      ensures r.Ok? ==> swapChainImageFormat == SurfaceFormatFor(inputs.surface.formats).format
      ensures r.Ok? ==> swapChainExtent == ChooseSwapExtent(inputs.surface.capabilities, inputs.size)
    {
      var surfaceFormat := ChooseSwapSurfaceFormat(inputs.surface.formats);
      var _ := ChooseSwapPresentMode(inputs.surface.presentModes, vsync);
      LogCreate(inputs);
      if inputs.createResult != Success {
        return Err(RuntimeError("failed to create swap chain!"));
      }
      swapChain := device.NewHandle();
      swapChainImages := inputs.images;
      swapChainImageFormat := surfaceFormat.format;
      swapChainExtent := ChooseSwapExtent(inputs.surface.capabilities, inputs.size);
      r := Ok(());
    }

    /** The constructor's first steps, `create`, `createImageViews` and
        `createFramebuffers`: afterwards every swap chain image has its view
        and its framebuffer. */
    method CreateImageResources(create: CreateInputs, viewResults: seq<VkResult>, framebufferResults: seq<VkResult>)
      returns (r: Result<()>)
      requires device.Valid()
      requires |create.surface.formats| > 0 && families.IsComplete()
      modifies this`swapChain, this`swapChainImages, this`swapChainImageFormat, this`swapChainExtent
      modifies this`swapChainImageViews, this`swapChainFramebuffers, device`calls, device`nextHandle
      ensures device.Valid()
      ensures r.Ok? <==> ImageStepsSucceed(create, viewResults, framebufferResults)
      ensures r.Ok? ==> ImagesBuilt(create)
    {
      var _ :- Create(create);
      var _ :- CreateImageViews(viewResults);
      r := CreateFramebuffers(framebufferResults);
    }

    /** The constructor's last two steps, `createSyncObjects` then
        `createCommandBuffers`: afterwards every frame slot has its
        semaphores, its fence and an empty command buffer. */
    method CreateFrameSlots(syncResults: seq<SyncResults>, commandBufferResult: VkResult) returns (r: Result<()>)
      requires device.Valid() && families.IsComplete() && raytracer.device == device
      requires raytracer.outputImage.Some? ==> raytracer.outputImage.value.device == device
      requires currentFrame == 0
      modifies this`imageAvailableSemaphores, this`renderFinishedSemaphores, this`inFlightFences, this`commandBuffers
      modifies device
      ensures device.Valid()
      ensures r.Ok? <==> SlotStepsSucceed(syncResults, commandBufferResult)
      ensures r.Ok? ==> Valid() && currentFrame == 0
      ensures r.Ok? ==> forall k :: 0 <= k < MAX_FRAMES_IN_FLIGHT ==> device.recording[commandBuffers[k]] == []
    {
      var _ :- CreateSyncObjects(syncResults);
      r := CreateCommandBuffers(commandBufferResult);
    }

    /** The calls `create` makes before the swap chain exists. */
    method LogCreate(inputs: CreateInputs)
      requires |inputs.surface.formats| > 0 && families.IsComplete()
      modifies device`calls
      ensures device.calls == old(device.calls) + CreateCalls(families, inputs, vsync)
    {
      var calls := CreateCalls(families, inputs, vsync);
      device.calls := device.calls + calls;
    }

    /** `createImageViews`: one colour view per swap chain image, in the
        swap chain format; the first view that cannot be created throws. */
    method CreateImageViews(viewResults: seq<VkResult>) returns (r: Result<()>)
      modifies this`swapChainImageViews
      ensures r.Ok? <==> forall k :: 0 <= k < |swapChainImages| ==> ResultAt(viewResults, k) == Success
      ensures r.Ok? ==> swapChainImageViews == ViewsOf(swapChainImages, swapChainImageFormat)
      ensures r.Err? ==> r.error == RuntimeError("failed to create texture image view!")
                         && swapChainImageViews == old(swapChainImageViews)
    {
      var views: seq<ImageView> := [];
      var i := 0;
      while i < |swapChainImages|
        invariant 0 <= i <= |swapChainImages|
        invariant |views| == i
        invariant forall k :: 0 <= k < i ==> ResultAt(viewResults, k) == Success
        invariant forall k :: 0 <= k < i ==> views[k] == ImageView(swapChainImages[k], swapChainImageFormat, SingleRange(ColorAspect))
      {
        var view :- Devices.CreateImageView(swapChainImages[i], swapChainImageFormat, ColorAspect, ResultAt(viewResults, i));
        views := views + [view];
        i := i + 1;
      }
      swapChainImageViews := views;
      r := Ok(());
    }

    /** `createFramebuffers`: one framebuffer per swap chain image view; the
        first that cannot be created throws. */
    method CreateFramebuffers(results: seq<VkResult>) returns (r: Result<()>)
      modifies this`swapChainFramebuffers
      ensures r.Ok? <==> forall k :: 0 <= k < |swapChainImageViews| ==> ResultAt(results, k) == Success
      ensures r.Ok? ==> swapChainFramebuffers == FramebuffersOf(swapChainImageViews, rasterizer, swapChainExtent)
      ensures r.Err? ==> r.error == RuntimeError("failed to create framebuffer!")
                         && swapChainFramebuffers == old(swapChainFramebuffers)
    {
      var framebuffers: seq<Framebuffer> := [];
      var i := 0;
      while i < |swapChainImageViews|
        invariant 0 <= i <= |swapChainImageViews|
        invariant |framebuffers| == i
        invariant forall k :: 0 <= k < i ==> ResultAt(results, k) == Success
        invariant forall k :: 0 <= k < i ==>
                    framebuffers[k] == Framebuffer(rasterizer.renderPass, [swapChainImageViews[k], rasterizer.depthImageView],
                                                   swapChainExtent.width, swapChainExtent.height, 1)
      {
        if ResultAt(results, i) != Success {
          return Err(RuntimeError("failed to create framebuffer!"));
        }
        framebuffers := framebuffers + [Framebuffer(rasterizer.renderPass, [swapChainImageViews[i], rasterizer.depthImageView],
                                                    swapChainExtent.width, swapChainExtent.height, 1)];
        i := i + 1;
      }
      swapChainFramebuffers := framebuffers;
      r := Ok(());
    }

    /** `createSyncObjects`: per frame slot, the image-available semaphore,
        the render-finished semaphore and the in-flight fence, each a new
        handle; the first slot with a failed creation throws. */
    method CreateSyncObjects(results: seq<SyncResults>) returns (r: Result<()>)
      requires device.Valid()
      modifies this`imageAvailableSemaphores, this`renderFinishedSemaphores, this`inFlightFences, device`nextHandle
      ensures device.Valid()
      ensures r.Ok? <==> forall k :: 0 <= k < MAX_FRAMES_IN_FLIGHT ==> AllCreated(SyncResultAt(results, k))
      ensures r.Err? ==> r.error == RuntimeError("failed to create synchronization objects for a frame!")
      ensures r.Ok? ==> device.nextHandle == old(device.nextHandle) + 3 * MAX_FRAMES_IN_FLIGHT
      ensures r.Ok? ==> |imageAvailableSemaphores| == MAX_FRAMES_IN_FLIGHT && |renderFinishedSemaphores| == MAX_FRAMES_IN_FLIGHT
                        && |inFlightFences| == MAX_FRAMES_IN_FLIGHT
      ensures r.Ok? ==> forall k :: 0 <= k < MAX_FRAMES_IN_FLIGHT ==>
                          imageAvailableSemaphores[k] == old(device.nextHandle) + 3 * k
                          && renderFinishedSemaphores[k] == old(device.nextHandle) + 3 * k + 1
                          && inFlightFences[k] == old(device.nextHandle) + 3 * k + 2
    {
      var available: seq<Handle> := [];
      var finished: seq<Handle> := [];
      var fences: seq<Handle> := [];
      var i := 0;
      while i < MAX_FRAMES_IN_FLIGHT
        invariant 0 <= i <= MAX_FRAMES_IN_FLIGHT
        invariant device.Valid()
        invariant device.nextHandle == old(device.nextHandle) + 3 * i
        invariant |available| == i && |finished| == i && |fences| == i
        invariant forall k :: 0 <= k < i ==> AllCreated(SyncResultAt(results, k))
        invariant forall k :: 0 <= k < i ==>
                    available[k] == old(device.nextHandle) + 3 * k && finished[k] == old(device.nextHandle) + 3 * k + 1
                    && fences[k] == old(device.nextHandle) + 3 * k + 2
      {
        if !AllCreated(SyncResultAt(results, i)) {
          return Err(RuntimeError("failed to create synchronization objects for a frame!"));
        }
        var a := device.NewHandle();
        var f := device.NewHandle();
        var g := device.NewHandle();
        available, finished, fences := available + [a], finished + [f], fences + [g];
        i := i + 1;
      }
      imageAvailableSemaphores, renderFinishedSemaphores, inFlightFences := available, finished, fences;
      r := Ok(());
    }

    /** `createCommandBuffers`: one primary command buffer per frame slot,
        allocated together from the device's pool. */
    method CreateCommandBuffers(result: VkResult) returns (r: Result<()>)
      requires device.Valid()
      modifies this`commandBuffers, device
      ensures device.Valid()
      ensures r.Ok? <==> result == Success
      ensures r.Err? ==> r.error == RuntimeError("failed to allocate command buffers!")
                         && device.calls == old(device.calls) && device.recording == old(device.recording)
      ensures device.executed == old(device.executed)
      ensures r.Ok? ==> |commandBuffers| == MAX_FRAMES_IN_FLIGHT
                        && device.nextHandle == old(device.nextHandle) + MAX_FRAMES_IN_FLIGHT
      ensures r.Ok? ==> forall k :: 0 <= k < MAX_FRAMES_IN_FLIGHT ==>
                          commandBuffers[k] == old(device.nextHandle) + k && commandBuffers[k] !in old(device.recording)
                          && commandBuffers[k] in device.recording && device.recording[commandBuffers[k]] == []
      ensures r.Ok? ==> forall h :: h in old(device.recording) ==> h in device.recording && device.recording[h] == old(device.recording)[h]
    {
      if result != Success {
        return Err(RuntimeError("failed to allocate command buffers!"));
      }
      var buffers: seq<Handle> := [];
      var i := 0;
      while i < MAX_FRAMES_IN_FLIGHT
        invariant 0 <= i <= MAX_FRAMES_IN_FLIGHT
        invariant device.Valid() && device.executed == old(device.executed)
        invariant device.nextHandle == old(device.nextHandle) + i
        invariant |buffers| == i
        invariant forall k :: 0 <= k < i ==>
                    buffers[k] == old(device.nextHandle) + k && buffers[k] in device.recording && device.recording[buffers[k]] == []
        invariant forall h :: h in old(device.recording) ==> h in device.recording && device.recording[h] == old(device.recording)[h]
      {
        var buffer := device.AllocatePrimaryCommandBuffer();
        buffers := buffers + [buffer];
        i := i + 1;
      }
      commandBuffers := buffers;
      r := Ok(());
    }

    /** `cleanup`: destroys the ray tracing output view, the rasterizer's
        depth view and memory, every framebuffer, every swap chain image
        view, and the swap chain. The fields keep the destroyed handles
        until they are created again. */
    method Cleanup()
      modifies device`calls
      ensures device.calls == old(device.calls)
                + CleanupCalls(raytracer.outputImageView, rasterizer, swapChainFramebuffers, swapChainImageViews, swapChain)
    {
      device.LogAll(DestroyOptionalViewCalls(raytracer.outputImageView)
                    + [DestroyImageView(rasterizer.depthImageView), FreeMemory(rasterizer.depthImageMemory)]);
      DestroyFramebuffers();
      DestroyImageViews();
      device.Log(DestroySwapchain(swapChain));
      Sequences.AppendFour(old(device.calls), DestroyOptionalViewCalls(raytracer.outputImageView)
                   + [DestroyImageView(rasterizer.depthImageView), FreeMemory(rasterizer.depthImageMemory)],
                 DestroyFramebufferCalls(swapChainFramebuffers), DestroyViewCalls(swapChainImageViews),
                 [DestroySwapchain(swapChain)]);
    }

    /** The framebuffer loop of `cleanup`. */
    method DestroyFramebuffers()
      modifies device`calls
      ensures device.calls == old(device.calls) + DestroyFramebufferCalls(swapChainFramebuffers)
    {
      var i := 0;
      while i < |swapChainFramebuffers|
        invariant 0 <= i <= |swapChainFramebuffers|
        invariant device.calls == old(device.calls) + DestroyFramebufferCalls(swapChainFramebuffers[..i])
      {
        device.Log(DestroyFramebuffer(swapChainFramebuffers[i]));
        assert swapChainFramebuffers[..i + 1][..i] == swapChainFramebuffers[..i];
        i := i + 1;
      }
      assert swapChainFramebuffers[..i] == swapChainFramebuffers;
    }

    /** The image view loop of `cleanup`. */
    method DestroyImageViews()
      modifies device`calls
      ensures device.calls == old(device.calls) + DestroyViewCalls(swapChainImageViews)
    {
      var i := 0;
      while i < |swapChainImageViews|
        invariant 0 <= i <= |swapChainImageViews|
        invariant device.calls == old(device.calls) + DestroyViewCalls(swapChainImageViews[..i])
      {
        device.Log(DestroyImageView(swapChainImageViews[i]));
        assert swapChainImageViews[..i + 1][..i] == swapChainImageViews[..i];
        i := i + 1;
      }
      assert swapChainImageViews[..i] == swapChainImageViews;
    }

    /** The start of `recreate`: queries the window's framebuffer size, and
        while either side is zero (the window is minimised) queries it again
        and waits for window events. Returns the first nonzero size. */
    method WaitForFramebufferSize(sizes: seq<FramebufferSize>) returns (size: FramebufferSize)
      requires exists i :: 0 <= i < |sizes| && NonZero(sizes[i])
      modifies device`calls
      ensures size == sizes[PollsNeeded(sizes)] && NonZero(size)
      ensures device.calls == old(device.calls) + [GetFramebufferSize] + PollCalls(PollsNeeded(sizes))
    {
      device.Log(GetFramebufferSize);
      var i := 0;
      size := sizes[0];
      while !NonZero(size)
        invariant 0 <= i <= PollsNeeded(sizes)
        invariant size == sizes[i]
        invariant device.calls == old(device.calls) + [GetFramebufferSize] + PollCalls(i)
        decreases PollsNeeded(sizes) - i
      {
        i := i + 1;
        size := sizes[i];
        device.Log(GetFramebufferSize);
        device.Log(WaitEvents);
      }
    }

    /** The swap chain objects are those `recreate` made from `inputs`: the
        images it returned, the extent chosen for the window, one view per
        image and one framebuffer per view. */
    ghost predicate Rebuilt(inputs: RebuildInputs)
      reads this`swapChainImages, this`swapChainExtent, this`swapChainImageViews, this`swapChainImageFormat
      reads this`rasterizer, this`swapChainFramebuffers
    {
      rasterizer == inputs.rasterizer && ImagesBuilt(inputs.create)
    }

    /** Every image `create` returned has its colour view and its
        framebuffer over the current rasterizer, at the chosen extent. */
    ghost predicate ImagesBuilt(create: CreateInputs)
      reads this`swapChainImages, this`swapChainExtent, this`swapChainImageViews, this`swapChainImageFormat
      reads this`rasterizer, this`swapChainFramebuffers
    {
      swapChainImages == create.images
      && swapChainExtent == ChooseSwapExtent(create.surface.capabilities, create.size)
      && swapChainImageViews == ViewsOf(swapChainImages, swapChainImageFormat)
      && swapChainFramebuffers == FramebuffersOf(swapChainImageViews, rasterizer, swapChainExtent)
    }

    /** The host calls of a `recreate` from this state: the size polls, the
        wait for the device, the destruction of the current objects, and
        their creation again. */
    ghost function RecreateCalls(inputs: RebuildInputs): seq<Call>
      requires families.IsComplete() && |inputs.create.surface.formats| > 0
      requires exists i :: 0 <= i < |inputs.sizes| && NonZero(inputs.sizes[i])
      reads this`rasterizer, this`swapChainFramebuffers, this`swapChainImageViews, this`swapChain, raytracer`outputImageView
    {
      TeardownCalls(PollsNeeded(inputs.sizes), raytracer.outputImageView, rasterizer,
                    swapChainFramebuffers, swapChainImageViews, swapChain)
        + RebuildCalls(families, inputs, vsync)
    }

    /** `recreate`: waits until the window has a nonzero size and the device
        is idle, destroys the old swap chain objects, and creates the swap
        chain, its image views, the rasterizer's size-dependent objects and
        the framebuffers again. The frame slots, their command buffers and
        synchronisation objects, and the current slot are untouched. */
    method Recreate(inputs: RebuildInputs) returns (r: Result<()>)
      requires Valid()
      requires exists i :: 0 <= i < |inputs.sizes| && NonZero(inputs.sizes[i])
      requires |inputs.create.surface.formats| > 0
      modifies this`swapChain, this`swapChainImages, this`swapChainImageFormat, this`swapChainExtent
      modifies this`swapChainImageViews, this`swapChainFramebuffers, this`rasterizer, device`calls, device`nextHandle
      ensures Valid()
      ensures device.calls == old(device.calls) + old(RecreateCalls(inputs))
      ensures r.Ok? <==> ViewsCreated(inputs) && FramebuffersCreated(inputs)
      ensures r.Ok? ==> Rebuilt(inputs)
    {
      ghost var teardown := TeardownCalls(PollsNeeded(inputs.sizes), raytracer.outputImageView, rasterizer,
                                          swapChainFramebuffers, swapChainImageViews, swapChain);
      ghost var calls := device.calls;
      TearDown(inputs.sizes);
      r := Rebuild(inputs);
      Sequences.AppendTwo(calls, teardown, RebuildCalls(families, inputs, vsync));
    }

    /** The first half of `recreate`, up to and including `cleanup`. */
    method TearDown(sizes: seq<FramebufferSize>)
      requires exists i :: 0 <= i < |sizes| && NonZero(sizes[i])
      modifies device`calls
      ensures device.calls == old(device.calls)
                + TeardownCalls(PollsNeeded(sizes), raytracer.outputImageView, rasterizer,
                                swapChainFramebuffers, swapChainImageViews, swapChain)
    {
      var _ := WaitForFramebufferSize(sizes);
      device.WaitIdle();
      Cleanup();
      Sequences.AppendFour(old(device.calls), [GetFramebufferSize], PollCalls(PollsNeeded(sizes)), [DeviceWaitIdle],
                 CleanupCalls(raytracer.outputImageView, rasterizer, swapChainFramebuffers, swapChainImageViews, swapChain));
    }

    /** The second half of `recreate`, after `cleanup`. */
    method Rebuild(inputs: RebuildInputs) returns (r: Result<()>)
      requires Valid()
      requires |inputs.create.surface.formats| > 0
      modifies this`swapChain, this`swapChainImages, this`swapChainImageFormat, this`swapChainExtent
      modifies this`swapChainImageViews, this`swapChainFramebuffers, this`rasterizer, device`calls, device`nextHandle
      ensures Valid()
      ensures device.calls == old(device.calls) + RebuildCalls(families, inputs, vsync)
      ensures r.Ok? <==> ViewsCreated(inputs) && FramebuffersCreated(inputs)
      ensures r.Ok? ==> Rebuilt(inputs)
    {
      r := Create(inputs.create);
      if r.Ok? {
        r := RecreateImageResources(inputs);
      }
    }

    /** The part of `recreate` after `create`: the image views, the
        rasterizer's `refresh`, and the framebuffers. */
    method RecreateImageResources(inputs: RebuildInputs) returns (r: Result<()>)
      requires swapChainImages == inputs.create.images && inputs.create.createResult == Success
      modifies this`swapChainImageViews, this`swapChainFramebuffers, this`rasterizer, device`calls
      ensures device.calls == old(device.calls) + (if ViewsCreated(inputs) then [RefreshRasterizer] else [])
      ensures r.Ok? <==> ViewsCreated(inputs) && FramebuffersCreated(inputs)
      ensures r.Ok? ==> swapChainImageViews == ViewsOf(swapChainImages, swapChainImageFormat)
                        && rasterizer == inputs.rasterizer
                        && swapChainFramebuffers == FramebuffersOf(swapChainImageViews, rasterizer, swapChainExtent)
    {
      var _ :- CreateImageViews(inputs.viewResults);
      device.Log(RefreshRasterizer);
      rasterizer := inputs.rasterizer;
      r := CreateFramebuffers(inputs.framebufferResults);
    }

    /** `drawFrame`: waits for the current slot's fence and acquires an
        image. Out of date recreates the swap chain and ends the frame with
        the slot unchanged; other failures throw. Otherwise the frame is
        rendered into the slot's command buffer, submitted and presented,
        the swap chain recreated if the present asks for it, and the next
        slot made current. The ray tracer copies its output into the image
        numbered by the slot, while the present shows the acquired image.
        `recreated` is what a `recreate` during the frame called, which
        `Recreate` states in full. */
    method DrawFrame(inputs: FrameInputs) returns (r: Result<()>, ghost recreated: seq<Call>)
      requires Valid()
      requires useRaytracer ==> raytracer.outputImage.Some? && currentFrame as nat < |swapChainImages|
      requires exists i :: 0 <= i < |inputs.rebuild.sizes| && NonZero(inputs.rebuild.sizes[i])
      requires |inputs.rebuild.create.surface.formats| > 0
      modifies this`swapChain, this`swapChainImages, this`swapChainImageFormat, this`swapChainExtent
      modifies this`swapChainImageViews, this`swapChainFramebuffers, this`rasterizer
      modifies this`currentFrame, this`framebufferResized
      modifies raytracer`frame, raytracer`standingFrames, raytracer`moves, device
      ensures Valid()
      ensures NoFrameWork(recreated)
      ensures inputs.acquireResult == ErrorOutOfDate ==>
                currentFrame == old(currentFrame) && device.executed == old(device.executed)
                && (r.Ok? <==> ViewsCreated(inputs.rebuild) && FramebuffersCreated(inputs.rebuild))
                && device.calls == old(device.calls)
                     + [WaitForFence(old(inFlightFences[currentFrame])),
                        AcquireNextImage(old(swapChain), old(imageAvailableSemaphores[currentFrame]))]
                     + recreated
      ensures inputs.acquireResult == ErrorOutOfDate ==> framebufferResized == old(framebufferResized)
      ensures !AcquireProceeds(inputs.acquireResult) && inputs.acquireResult != ErrorOutOfDate ==>
                r == Err(RuntimeError("failed to acquire swap chain image!"))
                && currentFrame == old(currentFrame) && device.executed == old(device.executed)
                && framebufferResized == old(framebufferResized) && Chain() == old(Chain())
      ensures AcquireProceeds(inputs.acquireResult) && r.Ok? ==> !framebufferResized
      ensures AcquireProceeds(inputs.acquireResult) && !PresentWantsRecreate(inputs.presentResult, old(framebufferResized)) ==>
                Chain() == old(Chain())
      ensures AcquireProceeds(inputs.acquireResult) && r.Ok? ==>
                inputs.submitResult == Success && currentFrame as nat == (old(currentFrame) as nat + 1) % MAX_FRAMES_IN_FLIGHT
      ensures AcquireProceeds(inputs.acquireResult) && r.Ok? ==>
                device.executed == old(device.executed) + old(SlotWork(inputs))
      ensures AcquireProceeds(inputs.acquireResult) && r.Ok? ==>
                (recreated != [] <==> PresentWantsRecreate(inputs.presentResult, old(framebufferResized)))
                && device.calls == old(device.calls)
                     + [WaitForFence(old(inFlightFences[currentFrame])),
                        AcquireNextImage(old(swapChain), old(imageAvailableSemaphores[currentFrame]))]
                     + old(RenderCalls(inputs))
                     + [QueuePresent(device.presentQueue, old(swapChain), inputs.imageIndex, old(renderFinishedSemaphores[currentFrame]))]
                     + recreated
                     + [QueueWaitIdle(device.presentQueue)]
      ensures AcquireProceeds(inputs.acquireResult) && r.Ok? && old(raytracer.CountersTrack()) ==> raytracer.CountersTrack()
    {
      device.LogAll([WaitForFence(inFlightFences[currentFrame]), AcquireNextImage(swapChain, imageAvailableSemaphores[currentFrame])]);
      if inputs.acquireResult == ErrorOutOfDate {
        r, recreated := RecreateDuringFrame(inputs.rebuild);
      } else if !AcquireProceeds(inputs.acquireResult) {
        r, recreated := Err(RuntimeError("failed to acquire swap chain image!")), [];
      } else {
        r, recreated := RenderAndPresent(inputs);
      }
    }

    /** `recreate` as `drawFrame` sees it: its calls, stated in full by
        `Recreate`, reset, record, submit and present nothing. */
    method RecreateDuringFrame(rebuild: RebuildInputs) returns (r: Result<()>, ghost recreated: seq<Call>)
      requires Valid()
      requires exists i :: 0 <= i < |rebuild.sizes| && NonZero(rebuild.sizes[i])
      requires |rebuild.create.surface.formats| > 0
      modifies this`swapChain, this`swapChainImages, this`swapChainImageFormat, this`swapChainExtent
      modifies this`swapChainImageViews, this`swapChainFramebuffers, this`rasterizer, device`calls, device`nextHandle
      ensures Valid()
      ensures device.calls == old(device.calls) + recreated
      ensures recreated != [] && NoFrameWork(recreated)
      ensures r.Ok? <==> ViewsCreated(rebuild) && FramebuffersCreated(rebuild)
    {
      recreated := RecreateCalls(rebuild);
      RecreateDoesNoFrameWork(PollsNeeded(rebuild.sizes), raytracer.outputImageView, rasterizer,
                              swapChainFramebuffers, swapChainImageViews, swapChain, families, rebuild, vsync);
      r := Recreate(rebuild);
    }

    /** `drawFrame` after a successful acquire. */
    method RenderAndPresent(inputs: FrameInputs) returns (r: Result<()>, ghost recreated: seq<Call>)
      requires Valid()
      requires useRaytracer ==> raytracer.outputImage.Some? && currentFrame as nat < |swapChainImages|
      requires exists i :: 0 <= i < |inputs.rebuild.sizes| && NonZero(inputs.rebuild.sizes[i])
      requires |inputs.rebuild.create.surface.formats| > 0
      modifies this`swapChain, this`swapChainImages, this`swapChainImageFormat, this`swapChainExtent
      modifies this`swapChainImageViews, this`swapChainFramebuffers, this`rasterizer
      modifies this`currentFrame, this`framebufferResized
      modifies raytracer`frame, raytracer`standingFrames, raytracer`moves, device
      ensures Valid()
      ensures NoFrameWork(recreated)
      ensures r.Ok? ==> inputs.submitResult == Success
                        && currentFrame as nat == (old(currentFrame) as nat + 1) % MAX_FRAMES_IN_FLIGHT
      ensures r.Ok? ==> device.executed == old(device.executed) + old(SlotWork(inputs))
      ensures r.Ok? ==>
                (recreated != [] <==> PresentWantsRecreate(inputs.presentResult, old(framebufferResized)))
                && device.calls == old(device.calls) + old(RenderCalls(inputs))
                     + [QueuePresent(device.presentQueue, old(swapChain), inputs.imageIndex, old(renderFinishedSemaphores[currentFrame]))]
                     + recreated
                     + [QueueWaitIdle(device.presentQueue)]
      ensures r.Ok? ==> !framebufferResized
      ensures !PresentWantsRecreate(inputs.presentResult, old(framebufferResized)) ==> Chain() == old(Chain())
      ensures r.Ok? && old(raytracer.CountersTrack()) ==> raytracer.CountersTrack()
    {
      recreated := [];
      r := RenderFrame(inputs);
      if r.Err? {
        return;
      }
      r, recreated := PresentFrame(inputs);
    }

    /** The host calls of a frame that renders: the uniform updates, the
        resets of the slot's fence and command buffer, the recording, and
        the submission that waits on the slot's image-available semaphore,
        signals its render-finished semaphore and fences with its in-flight
        fence. */
    ghost function RenderCalls(inputs: FrameInputs): seq<Call>
      requires Valid()
      reads this`commandBuffers, this`imageAvailableSemaphores, this`renderFinishedSemaphores, this`inFlightFences
      reads this`currentFrame, device`nextHandle, device`recording, raytracer`outputImage, this`useRaytracer
    {
      SlotCalls(currentFrame as nat, commandBuffers[currentFrame], imageAvailableSemaphores[currentFrame],
                renderFinishedSemaphores[currentFrame], inFlightFences[currentFrame],
                if useRaytracer then RaytracerRecordCalls(commandBuffers[currentFrame], device.graphicsQueue, device.nextHandle) else [],
                device.graphicsQueue)
    }

    /** The middle of `drawFrame`: updates the uniforms, resets the slot's
        fence and command buffer, records the frame (the ray tracer's or
        the rasterizer's), and submits it. */
    method RenderFrame(inputs: FrameInputs) returns (r: Result<()>)
      requires Valid()
      requires useRaytracer ==> raytracer.outputImage.Some? && currentFrame as nat < |swapChainImages|
      modifies raytracer`frame, raytracer`standingFrames, raytracer`moves, device
      ensures Valid()
      ensures r.Ok? <==> (useRaytracer ==> inputs.beginResult == Success && inputs.endResult == Success)
                         && inputs.submitResult == Success
      ensures r.Err? ==>
                r.error == if useRaytracer && inputs.beginResult != Success then RuntimeError("failed to begin recording command buffer!")
                           else if useRaytracer && inputs.endResult != Success then RuntimeError("failed to record command buffer!")
                           else RuntimeError("failed to submit draw command buffer!")
      ensures r.Ok? ==> device.calls == old(device.calls) + old(RenderCalls(inputs))
      ensures r.Ok? ==> device.executed == old(device.executed) + old(SlotWork(inputs))
      ensures r.Ok? && old(raytracer.CountersTrack()) ==> raytracer.CountersTrack()
    {
      ResetSlot();
      ghost var reset := device.calls;
      ghost var oneShot := device.nextHandle;
      r := RecordSlot(inputs);
      if r.Err? {
        return;
      }
      r := SubmitSlot(inputs.submitResult);
      if r.Ok? {
        assert old(RenderCalls(inputs))
               == [UpdateUniforms(currentFrame as nat), ResetFence(inFlightFences[currentFrame]),
                   Call.ResetCommandBuffer(commandBuffers[currentFrame])]
                  + (if useRaytracer then RaytracerRecordCalls(commandBuffers[currentFrame], device.graphicsQueue, oneShot) else [])
                  + [Call.QueueSubmit(device.graphicsQueue, commandBuffers[currentFrame], Some(imageAvailableSemaphores[currentFrame]),
                                      Some(renderFinishedSemaphores[currentFrame]), inFlightFences[currentFrame])];
        Sequences.AppendThree(old(device.calls),
                    [UpdateUniforms(currentFrame as nat), ResetFence(inFlightFences[currentFrame]),
                     Call.ResetCommandBuffer(commandBuffers[currentFrame])],
                    if useRaytracer then RaytracerRecordCalls(commandBuffers[currentFrame], device.graphicsQueue, oneShot) else [],
                    [Call.QueueSubmit(device.graphicsQueue, commandBuffers[currentFrame], Some(imageAvailableSemaphores[currentFrame]),
                                      Some(renderFinishedSemaphores[currentFrame]), inFlightFences[currentFrame])]);
      }
    }

    /** What the GPU runs for the current slot once its command buffer is
        submitted: the ray tracer's frame, whose copy targets the swap chain
        image numbered by the slot, or the rasterizer's pass. */
    ghost function SlotWork(inputs: FrameInputs): seq<Command>
      requires useRaytracer ==> raytracer.outputImage.Some? && currentFrame as nat < |swapChainImages|
      reads this`useRaytracer, this`currentFrame, this`swapChainExtent, this`swapChainImages
      reads raytracer`outputImage, raytracer`frame, raytracer`standingFrames
      reads raytracer`pipeline, raytracer`pipelineLayout, raytracer`descriptorSet
      reads raytracer`raygenRegion, raytracer`missRegion, raytracer`hitRegion, raytracer`callRegion
    {
      if useRaytracer then
        Raytracers.FrameTimeline(raytracer.Setup(), raytracer.frame, Raytracers.Pushed(inputs.hasMoved, raytracer.standingFrames),
                                 swapChainExtent, raytracer.outputImage.value.image, swapChainImages[currentFrame])
      else [RasterizerPass(currentFrame as nat, inputs.imageIndex)]
    }

    /** The uniform updates and the resets of the slot's fence and command
        buffer. */
    method ResetSlot()
      requires Valid()
      modifies device
      ensures Valid()
      ensures device.calls == old(device.calls)
                + [UpdateUniforms(currentFrame as nat), ResetFence(inFlightFences[currentFrame]),
                   Call.ResetCommandBuffer(commandBuffers[currentFrame])]
      ensures device.recording == old(device.recording)[commandBuffers[currentFrame] := []]
      ensures device.nextHandle == old(device.nextHandle) && device.executed == old(device.executed)
    {
      device.LogAll([UpdateUniforms(currentFrame as nat), ResetFence(inFlightFences[currentFrame])]);
      device.ResetCommandBuffer(commandBuffers[currentFrame]);
    }

    /** Records the slot's freshly reset command buffer. */
    method RecordSlot(inputs: FrameInputs) returns (r: Result<()>)
      requires Valid() && device.recording[commandBuffers[currentFrame]] == []
      requires useRaytracer ==> raytracer.outputImage.Some? && currentFrame as nat < |swapChainImages|
      modifies raytracer`frame, raytracer`standingFrames, raytracer`moves, device
      ensures Valid()
      ensures r.Ok? <==> useRaytracer ==> inputs.beginResult == Success && inputs.endResult == Success
      ensures r.Err? ==>
                r.error == if inputs.beginResult != Success then RuntimeError("failed to begin recording command buffer!")
                           else RuntimeError("failed to record command buffer!")
      ensures r.Ok? ==>
                device.calls == old(device.calls)
                  + if useRaytracer then RaytracerRecordCalls(commandBuffers[currentFrame], device.graphicsQueue, old(device.nextHandle))
                    else []
      ensures r.Ok? ==> device.executed + device.recording[commandBuffers[currentFrame]] == old(device.executed) + old(SlotWork(inputs))
      ensures r.Ok? && old(raytracer.CountersTrack()) ==> raytracer.CountersTrack()
    {
      if useRaytracer {
        r := RecordRaytraced(inputs);
      } else {
        RecordRasterized(inputs.imageIndex);
        r := Ok(());
      }
    }

    /** The ray tracer records the frame: the trace into its output image
        and the copy into the swap chain image numbered by the slot. */
    method RecordRaytraced(inputs: FrameInputs) returns (r: Result<()>)
      requires Valid() && useRaytracer && raytracer.outputImage.Some? && currentFrame as nat < |swapChainImages|
      modifies raytracer`frame, raytracer`standingFrames, raytracer`moves, device
      ensures Valid()
      ensures r.Ok? <==> inputs.beginResult == Success && inputs.endResult == Success
      ensures r.Err? ==>
                r.error == if inputs.beginResult != Success then RuntimeError("failed to begin recording command buffer!")
                           else RuntimeError("failed to record command buffer!")
      ensures r.Ok? ==>
                device.calls == old(device.calls)
                  + RaytracerRecordCalls(commandBuffers[currentFrame], device.graphicsQueue, old(device.nextHandle))
      ensures r.Ok? ==>
                device.executed + device.recording[commandBuffers[currentFrame]]
                == old(device.executed) + [FrameCommands.ReturnToGeneral(raytracer.outputImage.value.image)]
                   + old(device.recording[commandBuffers[currentFrame]])
                   + Raytracers.FrameRecording(raytracer.Setup(), old(raytracer.frame),
                                               Raytracers.Pushed(inputs.hasMoved, old(raytracer.standingFrames)),
                                               swapChainExtent, raytracer.outputImage.value.image, swapChainImages[currentFrame])
      ensures r.Ok? && old(raytracer.CountersTrack()) ==> raytracer.CountersTrack()
    {
      var commandBuffer := commandBuffers[currentFrame];
      ghost var output := raytracer.outputImage.value.image;
      ghost var recorded := device.recording[commandBuffer];
      r := raytracer.RecordCommandBuffer(commandBuffer, inputs.hasMoved, inputs.beginResult, inputs.endResult,
                                         swapChainExtent, swapChainImages[currentFrame]);
      if r.Ok? {
        Sequences.AppendFour(old(device.calls), [BeginCommandBuffer(commandBuffer, false)],
                   Devices.OneShotCalls(device.graphicsQueue, old(device.nextHandle)),
                   [EndCommandBuffer(commandBuffer)], [DeviceWaitIdle]);
        Sequences.AppendTwo(old(device.executed) + [FrameCommands.ReturnToGeneral(output)], recorded,
                  Raytracers.FrameRecording(raytracer.Setup(), old(raytracer.frame),
                                            Raytracers.Pushed(inputs.hasMoved, old(raytracer.standingFrames)),
                                            swapChainExtent, output, swapChainImages[currentFrame]));
      }
    }

    /** The rasterizer records its pass for the slot and the acquired image. */
    method RecordRasterized(imageIndex: U32)
      requires Valid()
      modifies device`recording
      ensures Valid()
      ensures device.recording == old(device.recording)[commandBuffers[currentFrame] :=
                old(device.recording)[commandBuffers[currentFrame]] + [RasterizerPass(currentFrame as nat, imageIndex)]]
    {
      device.Record(commandBuffers[currentFrame], RasterizerPass(currentFrame as nat, imageIndex));
    }

    /** Submits the slot's command buffer, waiting on its image-available
        semaphore, signalling its render-finished semaphore and fencing with
        its in-flight fence. */
    method SubmitSlot(result: VkResult) returns (r: Result<()>)
      requires Valid()
      modifies device`calls, device`executed
      ensures Valid()
      ensures r.Ok? <==> result == Success
      ensures r.Err? ==> r.error == RuntimeError("failed to submit draw command buffer!")
      ensures device.calls == old(device.calls)
                + [Call.QueueSubmit(device.graphicsQueue, commandBuffers[currentFrame], Some(imageAvailableSemaphores[currentFrame]),
                                    Some(renderFinishedSemaphores[currentFrame]), inFlightFences[currentFrame])]
      ensures device.executed == old(device.executed) + (if r.Ok? then device.recording[commandBuffers[currentFrame]] else [])
    {
      device.QueueSubmit(commandBuffers[currentFrame], imageAvailableSemaphores[currentFrame], renderFinishedSemaphores[currentFrame],
                         inFlightFences[currentFrame], result);
      if result != Success {
        return Err(RuntimeError("failed to submit draw command buffer!"));
      }
      r := Ok(());
    }

    /** The end of `drawFrame`: presents the acquired image once rendering
        has finished, recreates the swap chain when the present or the
        window asks for it, waits for the present queue, and moves to the
        next frame slot. */
    method PresentFrame(inputs: FrameInputs) returns (r: Result<()>, ghost recreated: seq<Call>)
      requires Valid()
      requires exists i :: 0 <= i < |inputs.rebuild.sizes| && NonZero(inputs.rebuild.sizes[i])
      requires |inputs.rebuild.create.surface.formats| > 0
      modifies this`swapChain, this`swapChainImages, this`swapChainImageFormat, this`swapChainExtent
      modifies this`swapChainImageViews, this`swapChainFramebuffers, this`rasterizer
      modifies this`currentFrame, this`framebufferResized, device`calls, device`nextHandle
      ensures Valid()
      ensures (recreated != [] <==> PresentWantsRecreate(inputs.presentResult, old(framebufferResized))) && NoFrameWork(recreated)
      ensures !framebufferResized
      ensures !PresentWantsRecreate(inputs.presentResult, old(framebufferResized)) ==> Chain() == old(Chain())
      ensures r.Ok? <==> if PresentWantsRecreate(inputs.presentResult, old(framebufferResized))
                         then ViewsCreated(inputs.rebuild) && FramebuffersCreated(inputs.rebuild)
                         else inputs.presentResult == Success
      ensures r.Err? && !PresentWantsRecreate(inputs.presentResult, old(framebufferResized)) ==>
                r.error == RuntimeError("failed to present swap chain image!")
      ensures device.calls == old(device.calls)
                + [QueuePresent(device.presentQueue, old(swapChain), inputs.imageIndex, old(renderFinishedSemaphores[currentFrame]))]
                + recreated
                + (if r.Ok? then [QueueWaitIdle(device.presentQueue)] else [])
      ensures r.Ok? ==> currentFrame as nat == (old(currentFrame) as nat + 1) % MAX_FRAMES_IN_FLIGHT
      ensures r.Err? ==> currentFrame == old(currentFrame)
    {
      device.Log(QueuePresent(device.presentQueue, swapChain, inputs.imageIndex, renderFinishedSemaphores[currentFrame]));
      r, recreated := HandlePresentResult(inputs.presentResult, inputs.rebuild);
      if r.Ok? {
        AdvanceFrame();
      }
    }

    /** The check after `vkQueuePresentKHR`: recreates the swap chain (and
        clears the resize flag) when the present reported it out of date or
        suboptimal or the window was resized; otherwise any failure throws. */
    method HandlePresentResult(result: VkResult, rebuild: RebuildInputs) returns (r: Result<()>, ghost recreated: seq<Call>)
      requires Valid()
      requires exists i :: 0 <= i < |rebuild.sizes| && NonZero(rebuild.sizes[i])
      requires |rebuild.create.surface.formats| > 0
      modifies this`swapChain, this`swapChainImages, this`swapChainImageFormat, this`swapChainExtent
      modifies this`swapChainImageViews, this`swapChainFramebuffers, this`rasterizer
      modifies this`framebufferResized, device`calls, device`nextHandle
      ensures Valid()
      ensures (recreated != [] <==> PresentWantsRecreate(result, old(framebufferResized))) && NoFrameWork(recreated)
      ensures !framebufferResized
      ensures !PresentWantsRecreate(result, old(framebufferResized)) ==> Chain() == old(Chain())
      ensures r.Ok? <==> if PresentWantsRecreate(result, old(framebufferResized))
                         then ViewsCreated(rebuild) && FramebuffersCreated(rebuild)
                         else result == Success
      ensures r.Err? && !PresentWantsRecreate(result, old(framebufferResized)) ==>
                r.error == RuntimeError("failed to present swap chain image!")
      ensures device.calls == old(device.calls) + recreated
    {
      recreated := [];
      if PresentWantsRecreate(result, framebufferResized) {
        framebufferResized := false;
        r, recreated := RecreateDuringFrame(rebuild);
      } else if result != Success {
        r := Err(RuntimeError("failed to present swap chain image!"));
      } else {
        r := Ok(());
      }
    }

    /** The last steps of `drawFrame`: waits for the present queue and makes
        the next frame slot current, wrapping after the last. */
    method AdvanceFrame()
      requires Valid()
      modifies this`currentFrame, device`calls
      ensures Valid()
      ensures device.calls == old(device.calls) + [QueueWaitIdle(device.presentQueue)]
      ensures currentFrame as nat == (old(currentFrame) as nat + 1) % MAX_FRAMES_IN_FLIGHT
    {
      device.Log(QueueWaitIdle(device.presentQueue));
      currentFrame := (currentFrame + 1) % MAX_FRAMES_IN_FLIGHT as U32;
    }

    /** `refresh`, run once the scene is loaded: the rasterizer's descriptor
        sets, then the ray tracer's descriptor set around a new output image
        the size of the swap chain, moved to GENERAL. */
    method Refresh(imageDriver: Images.ImageDriver, viewResult: VkResult, allocateResult: VkResult,
                   scene: Raytracers.SceneBindings)
      returns (r: Result<()>)
      requires Valid() && raytracer.uniformBuffer.Some?
      modifies raytracer`outputImage, raytracer`outputImageView, raytracer`descriptorSet, device
      ensures Valid()
      ensures r.Ok? ==> raytracer.outputImage.Some? && fresh(raytracer.outputImage.value)
                        && raytracer.outputImage.value.imageType == Images.RTOutputImage
                        && raytracer.outputImage.value.createInfo.extent == Extent3D(swapChainExtent.width, swapChainExtent.height, 1)
      ensures r.Ok? ==> device.executed == old(device.executed)
                          + [Devices.TransitionBarrier(raytracer.outputImage.value.image, Undefined, General, true).value]
      ensures r.Ok? ==> raytracer.outputImageView
                          == Some(ImageView(raytracer.outputImage.value.image, B8G8R8A8Unorm, SingleRange(ColorAspect)))
      ensures r.Ok? ==> device.calls == old(device.calls) + [CreateRasterizerDescriptorSets]
                          + Raytracers.ReleaseCalls(old(raytracer.outputImage))
                          + Devices.OneShotCalls(device.graphicsQueue, old(device.nextHandle) + 2)
                          + [UpdateDescriptorSets(Raytracers.DescriptorWrites(raytracer.descriptorSet, scene,
                                                                              raytracer.outputImageView.value,
                                                                              raytracer.uniformBuffer.value.buffer,
                                                                              raytracer.uniformBuffer.value.size))]
      ensures allocateResult != Success || viewResult != Success ==> r.Err?
    {
      device.Log(CreateRasterizerDescriptorSets);
      r := raytracer.CreateDescriptorSet(swapChainExtent, imageDriver, viewResult, allocateResult, scene);
    }
  }

  /** The driver's answers for the constructor: those of `create`, one
      result per image view and per framebuffer, those of each frame slot's
      synchronisation objects, and that of the command buffer allocation. */
  datatype SwapChainInputs = SwapChainInputs(
    create: CreateInputs,
    viewResults: seq<VkResult>,
    framebufferResults: seq<VkResult>,
    syncResults: seq<SyncResults>,
    commandBufferResult: VkResult)

  /** `SwapChain::SwapChain`: creates the swap chain, its image views, the
      framebuffers (over the rasterizer's render pass and depth view), the
      frame slots' synchronisation objects and their command buffers, in
      that order; the first failure throws. A swap chain that is built is
      valid, starts at slot 0 and holds one view and one framebuffer per
      image. */
  method NewSwapChain(device: Devices.Device, raytracer: Raytracers.Raytracer, rasterizer: RasterizerState,
                      inputs: SwapChainInputs)
    returns (r: Result<SwapChain>)
    requires device.Valid() && raytracer.device == device
    requires raytracer.outputImage.Some? ==> raytracer.outputImage.value.device == device
    requires PD.SelectedQueueFamilies(device.physical.queueFamilies).IsComplete()
    requires |inputs.create.surface.formats| > 0
    modifies device
    ensures device.Valid()
    ensures r.Ok? <==> ImageStepsSucceed(inputs.create, inputs.viewResults, inputs.framebufferResults)
                       && SlotStepsSucceed(inputs.syncResults, inputs.commandBufferResult)
    ensures r.Ok? ==> fresh(r.value) && r.value.Valid() && r.value.device == device && r.value.raytracer == raytracer
                      && r.value.currentFrame == 0
    ensures r.Ok? ==> r.value.ImagesBuilt(inputs.create) && r.value.rasterizer == rasterizer
  {
    var chain := new SwapChain(device, raytracer, rasterizer);
    var _ :- chain.CreateImageResources(inputs.create, inputs.viewResults, inputs.framebufferResults);
    var _ :- chain.CreateFrameSlots(inputs.syncResults, inputs.commandBufferResult);
    r := Ok(chain);
  }
}
