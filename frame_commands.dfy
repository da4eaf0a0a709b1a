/** `SwapChain::copyToBackImage`: how the ray-traced output image reaches the
    presentable image of the current frame slot. Three barriers and the copy
    go into the frame's command buffer; the barrier that returns the output
    image to GENERAL is submitted on its own and has executed before the
    frame's command buffer is even submitted. */
module FrameCommands {
  import opened Wrappers
  import opened Vulkan
  import Devices
  import Images
  import LayoutProtocol

  /** The commands recorded into the frame's command buffer: the output
      image into TRANSFER_SRC, the back image into TRANSFER_DST (discarding
      its contents), the full-extent copy, and the back image into
      PRESENT_SRC. */
  function BackImageCopy(output: Handle, back: Handle, extent: Extent2D): (commands: seq<Command>)
    ensures |commands| == 4
  {
    [Devices.TransitionBarrier(output, General, TransferSrcOptimal, true).value,
     Devices.TransitionBarrier(back, Undefined, TransferDstOptimal, true).value,
     CopyImage(output, TransferSrcOptimal, back, TransferDstOptimal, Devices.FullImageCopy(extent)),
     Devices.TransitionBarrier(back, TransferDstOptimal, PresentSrc, true).value]
  }

  /** The barrier submitted on its own, TRANSFER_SRC back to GENERAL. */
  function ReturnToGeneral(output: Handle): (command: Command)
    ensures command.PipelineBarrier? && command.image == output
    ensures command.barrier.oldLayout == TransferSrcOptimal && command.barrier.newLayout == General
  {
    Devices.TransitionBarrier(output, TransferSrcOptimal, General, true).value
  }

  /** Records the copy into `commandBuffer` and runs the return barrier in a
      one-shot command buffer of its own. Every pair used is in the ray
      tracing table, so nothing throws. */
  method CopyToBackImage(output: Images.Image, back: Handle, extent: Extent2D, commandBuffer: Handle)
    requires output.device.Valid() && commandBuffer in output.device.recording
    modifies output.device
    ensures output.device.Valid()
    ensures output.device.recording
            == old(output.device.recording)[commandBuffer := old(output.device.recording)[commandBuffer]
                                                              + BackImageCopy(output.image, back, extent)]
    ensures output.device.executed == old(output.device.executed) + [ReturnToGeneral(output.image)]
    ensures output.device.calls == old(output.device.calls)
                                   + Devices.OneShotCalls(output.device.graphicsQueue, old(output.device.nextHandle))
    ensures output.device.nextHandle == old(output.device.nextHandle) + 1
  {
    var device := output.device;
    ghost var before := device.recording[commandBuffer];
    var toSource := output.TransitionLayout(General, TransferSrcOptimal, commandBuffer, true);
    assert toSource.Ok?;
    var toDestination := device.TransitionImageLayout(back, Undefined, TransferDstOptimal, commandBuffer, true);
    assert toDestination.Ok?;
    device.CopyImage(output.image, back, extent, commandBuffer);
    var toGeneral := output.TransitionLayoutNow(TransferSrcOptimal, General, true);
    assert toGeneral.Ok?;
    var toPresent := device.TransitionImageLayout(back, TransferDstOptimal, PresentSrc, commandBuffer, true);
    assert toPresent.Ok?;
    assert device.recording[commandBuffer] == before + BackImageCopy(output.image, back, extent);
  }

  /** From the output image in GENERAL, the recorded copy follows the
      layout protocol and leaves the output image in TRANSFER_SRC and the
      back image in PRESENT_SRC, ready to be presented. */
  lemma BackImageCopyConforms(layouts: LayoutProtocol.Layouts, output: Handle, back: Handle, extent: Extent2D)
    requires output != back
    requires LayoutProtocol.LayoutOf(layouts, output) == General
    ensures LayoutProtocol.Run(layouts, BackImageCopy(output, back, extent))
            == Some(layouts[output := TransferSrcOptimal][back := PresentSrc])
  {
    var commands := BackImageCopy(output, back, extent);
    var l1 := layouts[output := TransferSrcOptimal];
    var l2 := l1[back := TransferDstOptimal];
    var l3 := l1[back := PresentSrc];
    assert LayoutProtocol.Step(layouts, commands[0]) == Some(l1);
    assert LayoutProtocol.Step(l1, commands[1]) == Some(l2);
    assert LayoutProtocol.LayoutOf(l2, output) == TransferSrcOptimal;
    assert LayoutProtocol.Step(l2, commands[2]) == Some(l2);
    assert l2[back := PresentSrc] == l3;
    assert LayoutProtocol.Step(l2, commands[3]) == Some(l3);
    assert LayoutProtocol.Run(l3, commands[1..][1..][1..][1..]) == Some(l3);
    assert LayoutProtocol.Run(l2, commands[1..][1..][1..]) == Some(l3);
    assert LayoutProtocol.Run(l2, commands[1..][1..]) == Some(l3);
    assert LayoutProtocol.Run(l1, commands[1..]) == Some(l3);
  }
}
