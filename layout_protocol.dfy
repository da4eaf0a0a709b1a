/** The image layout protocol, checked on the GPU timeline. Each image is in
    one layout at a time (UNDEFINED when created). A barrier must name the
    image's current layout as its old layout, unless it names UNDEFINED,
    which discards the contents and is valid from any layout. A copy must
    name the layouts its images are in, and ray tracing writes its storage
    image in the GENERAL layout. */
module LayoutProtocol {
  import opened Wrappers
  import opened Vulkan

  type Layouts = map<Handle, ImageLayout>

  function LayoutOf(layouts: Layouts, image: Handle): ImageLayout {
    if image in layouts then layouts[image] else Undefined
  }

  /** Executes one command; `None` when it expects an image to be in a
      layout it is not in. */
  function Step(layouts: Layouts, command: Command): Option<Layouts> {
    match command
    case PipelineBarrier(image, _, _, barrier) =>
      if barrier.oldLayout == Undefined || barrier.oldLayout == LayoutOf(layouts, image)
      then Some(layouts[image := barrier.newLayout])
      else None
    case CopyImage(src, srcLayout, dst, dstLayout, _) =>
      if LayoutOf(layouts, src) == srcLayout && LayoutOf(layouts, dst) == dstLayout then Some(layouts) else None
    case CopyBufferToImage(_, image, layout, _) =>
      if LayoutOf(layouts, image) == layout then Some(layouts) else None
    case TraceRays(_, _, _, _, _, _, _, storageImage) =>
      if LayoutOf(layouts, storageImage) == General then Some(layouts) else None
    case _ => Some(layouts)
  }

  /** Executes commands in order; `None` at the first protocol violation. */
  function Run(layouts: Layouts, commands: seq<Command>): Option<Layouts>
    decreases |commands|
  {
    if |commands| == 0 then Some(layouts)
    else
      match Step(layouts, commands[0])
      case None => None
      case Some(next) => Run(next, commands[1..])
  }

  /** Running two command sequences back to back is running the first and
      then the second from where it left the images. */
  lemma {:induction false} RunAppend(layouts: Layouts, first: seq<Command>, second: seq<Command>)
    ensures Run(layouts, first + second) ==
            (match Run(layouts, first)
             case None => None
             case Some(next) => Run(next, second))
    decreases |first|
  {
    if |first| == 0 {
      assert first + second == second;
    } else {
      assert (first + second)[0] == first[0];
      assert (first + second)[1..] == first[1..] + second;
      match Step(layouts, first[0])
      case None =>
      case Some(next) =>
        RunAppend(next, first[1..], second);
    }
  }

  /** Commands none of which changes or rejects the layouts leave them as
      they are. */
  lemma {:induction false} RunPassive(layouts: Layouts, commands: seq<Command>)
    requires forall i :: 0 <= i < |commands| ==> Step(layouts, commands[i]) == Some(layouts)
    ensures Run(layouts, commands) == Some(layouts)
    decreases |commands|
  {
    if |commands| > 0 {
      assert forall i :: 0 <= i < |commands[1..]| ==> commands[1..][i] == commands[i + 1];
      RunPassive(layouts, commands[1..]);
    }
  }
}
