# TOXEngine renderer core, modelled in Dafny

TOXEngine draws a scene with Vulkan. It can rasterize the scene or ray-trace
it. In ray-tracing mode, each frame traces rays into a storage image. That
image is copied into the presentable swap chain image and presented.

This project models the engine's core, class by class:

- `PhysicalDevice`: adapter selection, the queue family scan, and the memory-type and format searches.
- `Device`: queue creation, one-shot command buffers, image views, image copies and the image layout transition table.
- `Buffer`, `Image` and `Texture`: resource creation and upload.
- `Model` (rasterized meshes) and `RTXModel` (meshes for ray tracing).
- `AccelerationStructure`.
- `Raytracer`: the descriptor set, pipeline, shader binding table and per-frame command recording.
- `SwapChain`: creation, recreation and the per-frame draw loop.

Every class whose methods update fields is a Dafny `class` with those fields.
Pure computations (the searches, the transition table, the byte layouts) are
functions. Loops in the source are `while` loops with invariants, proved
against those functions.

The driver, the window system and the file loaders are not executed. What
they answer is a parameter of each operation. Examples are a `VkResult`, the
sizes the driver asks for, an allocated device address, and the parsed OBJ
file. The logical `Device` object carries what the engine does to the
outside world:

- `calls`: the host-side calls the model follows, in order. These are fence waits and resets, image acquisition, command-buffer allocation, begin, end and free, queue submissions and presents, idle waits, window-size queries, swapchain creation, descriptor updates and destructions. Creating a buffer, image, view, layout, pool, pipeline or structure is not logged; it shows only as a fresh handle drawn from `nextHandle`.
- `recording`: the commands recorded into each live command buffer.
- `executed`: the GPU timeline. A one-shot command buffer executes when `endSingleTimeCommands` returns, because it waits for the queue to go idle. A frame's command buffer executes at `vkQueueSubmit`.

Image layouts are checked on the GPU timeline by the layout protocol
(`LayoutProtocol`). An image starts in UNDEFINED. A barrier must name the
image's current layout, unless it names UNDEFINED, which discards the
contents. A copy must name the layouts its images are in. Ray tracing writes
its storage image in GENERAL.

The modules are:

- `Wrappers` (`Option`, `Result`);
- `Vulkan` (the shared vocabulary of handles, structures, commands and calls);
- `Sequences` (small list helpers);
- `Bytes` (what `memcpy` puts into a buffer);
- `LayoutProtocol`;
- `PhysicalDevices`, `Devices`, `Buffers`, `Images`, `Textures`, `Models`, `AccelerationStructures` and `RtxModels`;
- `FrameCommands` (`SwapChain::copyToBackImage`);
- `Raytracers` and `SwapChains`.

`SwapChain` and `Raytracer` refer to each other in the source. The model
breaks that cycle: `copyToBackImage` lives in `FrameCommands`, and
`SwapChain` passes it the back image and the extent.

Where a header and its `.cpp` disagree, the model follows the `.cpp`:

- `Image.h` has no `RTOutputImage` type, but `Image.cpp` creates one.
- The `Model` constructor's parameters differ between `Model.h` and `Model.cpp`.
- `Buffer::cleanup` is called but never declared.
- `Texture` calls `transitionLayout` with two arguments. The model takes `raytracing` as false there.

The following are modelled as written:

- The ray-traced image is copied into `swapChainImages[currentFrame]`, the image of the frame slot, not the acquired image `imageIndex`.
- The barrier that returns the output image to GENERAL is submitted in a one-shot command buffer of its own. It runs before the frame's command buffer.
- `recreate` destroys the ray tracer's output image view in `cleanup` and does not create a new one. The ray tracer's descriptor set keeps the destroyed view until `refresh` runs.

## Model

| member | source | states |
|---|---|---|
| PhysicalDevices.FindMemoryTypeFrom | Engine/PhysicalDevice.cpp:121-126 | the search from index `i` returns the first suitable memory type at or after `i` (allowed by the filter bit and holding every requested property), or none when no type from `i` on is suitable |
| PhysicalDevices.FindMemoryType | Engine/PhysicalDevice.cpp:116-129 | the result is the least memory-type index allowed by `typeFilter` whose flags contain `properties`; it fails, with "failed to find suitable memory type!", exactly when no type qualifies |
| PhysicalDevices.FindSupportedFormat | Engine/PhysicalDevice.cpp:131-149 | the result is the first candidate whose LINEAR or OPTIMAL features (as `tiling` says) include `features`; it fails exactly when no candidate qualifies, and always for any other tiling |
| PhysicalDevices.FirstOffering | Engine/PhysicalDevice.cpp:62-81 | the least family index offering graphics (or presentation), none exactly when no family offers it; the reference against which the scan is proved |
| PhysicalDevices.LastMatch | Engine/PhysicalDevice.cpp:64-74 | the greatest index below `n` whose family offers the capability, none exactly when none below `n` does: what the overwriting assignments leave after `n` iterations |
| PhysicalDevices.ScanLength | Engine/PhysicalDevice.cpp:76-78 | the scan visits at most every family |
| PhysicalDevices.SelectedQueueFamiliesCorrect | Engine/PhysicalDevice.cpp:51-84 | the scan yields complete indices exactly when some family has graphics and some family can present, and each reported family has the capability it is reported for |
| PhysicalDevices.ScanStops | Engine/PhysicalDevice.cpp:76-78 | the first iteration after which both kinds have been seen is where the loop breaks |
| PhysicalDevices.PhysicalDevice.FindQueueFamilies | Engine/PhysicalDevice.cpp:51-84 | the loop returns exactly the specified selection: the last graphics family and the last presenting family among those visited up to the first index where both are known |
| PhysicalDevices.PhysicalDevice.CheckDeviceExtensionSupport | Engine/PhysicalDevice.cpp:32-49 | the device qualifies if and only if it offers every extension in `deviceExtensions` |
| PhysicalDevices.PhysicalDevice.QuerySwapChainSupport | Engine/PhysicalDevice.cpp:86-114 | the details are exactly the surface's capabilities, formats and present modes, empty lists staying empty; the query is counted |
| PhysicalDevices.PhysicalDevice.HasRequiredFeatures | Engine/PhysicalDevice.cpp:151-168 | the adapter is suitable if and only if its queue families are complete, the extensions are present, the surface has a format and a present mode, and sampler anisotropy is supported; the surface is queried only when the extensions are present |
| PhysicalDevices.PhysicalDevice.constructor | Engine/PhysicalDevice.h:1-34 | a new object has no adapter selected and has queried no surface yet |
| PhysicalDevices.NewPhysicalDevice | Engine/PhysicalDevice.cpp:7-30 | no adapters throws "failed to find GPUs with Vulkan support!"; otherwise the first suitable adapter in enumeration order is selected, and "failed to find a suitable GPU!" is thrown exactly when none is suitable |
| Devices.UniqueFamilies | Engine/Device.cpp:22-23 | the set of the two family indices, each once, in ascending order, containing both |
| Devices.QueueCreateInfos | Engine/Device.cpp:21-33 | one create record per distinct family (one when the families coincide, two otherwise), each for one queue at priority 1.0, covering both families in ascending order |
| Devices.TransitionBarrier | Engine/Device.cpp:188-261 | a barrier is produced exactly for the pairs in the ray tracing table (five pairs) or the texture table (two pairs), otherwise the matching `invalid_argument`; the stages are ALL_COMMANDS for ray tracing and TOP_OF_PIPE/TRANSFER or TRANSFER/FRAGMENT_SHADER otherwise; a transfer write or read is waited on exactly when leaving TRANSFER_DST or TRANSFER_SRC and made available exactly when entering it, and shader reads exactly when entering SHADER_READ_ONLY |
| Devices.CreateImageView | Engine/Device.cpp:144-163 | a 2D view of the image's single subresource with the given format and aspect, or "failed to create texture image view!" exactly when creation fails |
| Devices.Device.constructor | Engine/Device.cpp:11-15 | the queues sit at index 0 of the graphics and present families, the pool belongs to the graphics family, nothing is recorded, executed or called yet |
| Devices.Device.NewHandle | Engine/Device.cpp:119 | each driver object gets a handle not returned before |
| Devices.Device.WaitIdle | Engine/Device.cpp:94 | `vkDeviceWaitIdle` is called and nothing else changes |
| Devices.Device.AllocatePrimaryCommandBuffer | Engine/Device.cpp:112-119 | a new, empty command buffer from the pool |
| Devices.Device.BeginSingleTimeCommands | Engine/Device.cpp:111-128 | a new, empty command buffer, allocated and begun for one submission |
| Devices.Device.EndSingleTimeCommands | Engine/Device.cpp:130-142 | ending, fence-less submission, queue wait and release in that order; the buffer's commands have executed when it returns and the buffer is gone |
| Devices.Device.RunOneShot | Engine/Device.cpp:111-142 | a command recorded between begin and end has executed once this returns, after everything executed before, with the six host calls of a one-shot buffer |
| Devices.Device.TransitionImageLayout | Engine/Device.cpp:188-261 | records the table's barrier into the command buffer exactly when the pair is accepted; otherwise throws and records nothing |
| Devices.Device.CopyImage | Engine/Device.cpp:165-186 | records one copy of the whole first colour layer, `extent` by 1 deep, from TRANSFER_SRC to TRANSFER_DST |
| Devices.Device.ResetCommandBuffer | Engine/SwapChain.cpp:309-310 | the buffer's recording is emptied |
| Devices.Device.QueueSubmit | Engine/SwapChain.cpp:335-338 | the submission is logged with its semaphores and fence, and the buffer's commands join the GPU timeline exactly when it succeeds |
| Devices.NewDevice | Engine/Device.cpp:11-109 | fails with "failed to create logical device!" or "failed to create graphics command pool!" exactly when that step fails; otherwise one queue create record per distinct selected family (one queue each at priority 1.0, in ascending family order, covering both the graphics and the present family), the graphics and present queues of the selected families, and the pool on the graphics family |
| Buffers.Usage | Engine/Buffer.cpp:9-70 | every type but staging and uniform buffers is reachable by device address; only the mesh buffers are copy targets; only staging buffers are copy sources; the mesh and instance buffers are acceleration-structure build inputs |
| Buffers.MemoryProperties | Engine/Buffer.cpp:9-70 | host-visible and coherent memory exactly for the buffers the host writes (staging, uniform, instance input, binding table), device-local memory for the rest |
| Buffers.Unwritten | Engine/Buffer.cpp:114 | a buffer created without data has `size` bytes, none of them written by the engine |
| Buffers.Buffer.constructor | Engine/Buffer.h:1-41 | the object records the given type, size, handles, memory type, address and contents |
| Buffers.Buffer.WriteMapped | Engine/Model.cpp:57-61 | mapping and copying over a host-visible buffer leaves it holding exactly the bytes written |
| Buffers.Buffer.Copy | Engine/Buffer.cpp:127-135 | the first `n` bytes of the source replace the start of this buffer and the rest is untouched, the source is unchanged, and the copy has run, after everything before, in a one-shot submission |
| Buffers.NewBuffer | Engine/Buffer.cpp:7-120 | "failed to create buffer!" when creation fails; otherwise success exactly when a memory type qualifies and allocation succeeds; the buffer uses the least qualifying memory type, has a device address exactly when its usage allows one, and holds the first `size` bytes of the data when given |
| Images.ImageUsage | Engine/Image.cpp:10-34 | only depth images are depth attachments; every type but depth can be a transfer target; only textures are sampled; only the raytracing output is a storage image and a transfer source; no image is a colour attachment |
| Images.ImageFormat | Engine/Image.cpp:10-34 | textures are R8G8B8A8_SRGB and the raytracing output B8G8R8A8_UNORM; a depth format is one of the three candidates with optimal-tiling depth support, and there is none exactly when no candidate has that support |
| Images.Image.constructor | Engine/Image.h:1-30 | the object records the given device, type, handles, format, creation parameters and memory type |
| Images.Image.CreateImageView | Engine/Image.cpp:78-80 | a view exists exactly when the driver creates it, over this image in its own format with one level and one layer of the given aspect |
| Images.Image.TransitionLayout | Engine/Image.cpp:90-94 | the barrier the device's transition table gives is appended to the caller's command buffer exactly when the pair is in the table; otherwise the table's error and nothing recorded |
| Images.Image.TransitionLayoutNow | Engine/Image.cpp:82-88 | an accepted pair's barrier is on the GPU timeline when the call returns, in its own one-shot submission; a rejected pair throws and leaves a begun command buffer that is never submitted |
| Images.Image.CopyBuffer | Engine/Image.cpp:96-114 | a one-shot copy of tightly packed texels from offset 0 into the whole first colour layer, with the image in TRANSFER_DST layout, is on the GPU timeline when the call returns |
| Images.Image.Destroy | Engine/Image.cpp:73-76 | destroys the image, then frees its memory, and nothing else |
| Images.NewImage | Engine/Image.cpp:5-71 | the format lookup's error, then "failed to create image!", then the memory search's error, then "failed to allocate image memory!"; on success a 2D single-sample image of one level and one layer in UNDEFINED layout with the type's format and usage, bound to the least device-local memory type that qualifies |
| Textures.StagingSize | Engine/Texture.cpp:15 | the staging size, four bytes per texel, equals the number of pixel bytes the loader returned and fits a C `int` |
| Textures.UploadConforms | Engine/Texture.cpp:33-38 | from any layouts, the upload's transition, copy and transition follow the layout protocol and leave the texture image, and only it, in SHADER_READ_ONLY |
| Textures.UploadAfterConforms | Engine/Texture.cpp:33-38 | appended to a timeline that follows the layout protocol, the upload keeps it following the protocol |
| Textures.Texture.constructor | Engine/Texture.h:1-25 | the object records the given device, image and view |
| Textures.Texture.Destroy | Engine/Texture.cpp:43-45 | destroys the view, then the image it alone holds, and frees the image's memory |
| Textures.StagePixels | Engine/Texture.cpp:21-27 | a staging buffer of exactly the pixels' size holding exactly the pixel bytes |
| Textures.UploadPixels | Engine/Texture.cpp:33-38 | three one-shot submissions put exactly the upload's three commands on the GPU timeline, in order |
| Textures.FinishTexture | Engine/Texture.cpp:33-40 | the upload runs, then the view is a colour view of the image in its own format; a failed view destroys the image as the exception unwinds |
| Textures.NewTexture | Engine/Texture.cpp:11-41 | "failed to load texture image!" with nothing created when the loader returns no pixels; on success an sRGB texture image of the loaded size whose GPU timeline ends with the upload from the staging buffer, and a colour view of it |
| Models.Constructed | Engine/Model.cpp:27-37 | one vertex per index entry, the k-th built from the k-th entry |
| Models.Flatten | Engine/Model.cpp:26-46 | every entry of every shape in loop order, one vertex per entry |
| Models.UniqueInOrder | Engine/Model.cpp:39-42 | the de-duplicated vertex array holds exactly the vertices that occur, each once, and is no longer than the entries |
| Models.IndexOf | Engine/Model.cpp:40 | the position of the first occurrence of the vertex, with no earlier occurrence |
| Models.IndexOfAppend | Engine/Model.cpp:40-41 | appending a vertex does not move any vertex already present |
| Models.MeshIndices | Engine/Model.cpp:44 | one index per entry |
| Models.MeshIndicesResolve | Engine/Model.cpp:39-44 | when the vertex count fits 32 bits, every index is in range and names its entry's own vertex |
| Models.MeshVerticesFirstOccurrenceOrder | Engine/Model.cpp:39-42 | the vertices appear in the order in which they first occur among the entries |
| Models.IndexOfPrefix | Engine/Model.cpp:40-41 | a vertex already present keeps its first position, which lies before the appended one |
| Models.AddKnownEntry | Engine/Model.cpp:39-44 | an entry whose vertex is already in the map reuses its index and keeps the loop invariant: arrays de-duplicated in first-occurrence order, indices resolving, map exact |
| Models.AddNewEntry | Engine/Model.cpp:39-44 | an entry with a new vertex appends it, maps it to the old vertex count and indexes it, keeping the loop invariant |
| Models.NewEntryIndices | Engine/Model.cpp:40-44 | after a new vertex, the old indices still resolve and the new one names the appended vertex |
| Models.NewEntryKnown | Engine/Model.cpp:40 | after a new vertex, the map still knows exactly the vertex array, with positions |
| Models.IndexedIsMesh | Engine/Model.cpp:26-46 | once every entry is processed, the loop's arrays are the specified de-duplicated vertices and resolving indices |
| Models.ConstructedStep | Engine/Model.cpp:27-45 | one more entry appends its vertex after everything before it |
| Models.FlattenStep | Engine/Model.cpp:26-46 | one more shape appends that shape's vertices |
| Models.BuildIndexedMesh | Engine/Model.cpp:24-46 | the hash-map loops return exactly the distinct vertices in first-occurrence order and, per entry, the index of its vertex |
| Models.IndexShape | Engine/Model.cpp:27-45 | the inner loop over one shape keeps the invariant while its entries join those seen |
| Models.NewStagingBuffer | Engine/Model.cpp:53-61 | a new host-visible buffer of exactly the array's size holding exactly its bytes, whether filled by the constructor or through a mapping |
| Models.UploadThroughStaging | Engine/Model.cpp:52-83 | on success a new device buffer of the array's size holding exactly its bytes, after one whole copy from the staging buffer; on failure nothing runs and nothing is called |
| Models.CopyToNewBuffer | Engine/Model.cpp:63-66 | a new buffer of the staging buffer's size holding its contents, after the copy ran in a one-shot submission |
| Models.UploadMesh | Engine/Model.cpp:48-49 | the vertex then index buffer, each holding exactly its bytes, after their two copies in that order |
| Models.Model.constructor | Engine/Model.h:1-38 | the model holds the given buffers and indices |
| Models.NewModel | Engine/Model.cpp:10-50 | a loader failure throws its warnings and errors and changes nothing; otherwise the vertex buffer holds the distinct vertices and the index buffer the indices resolving each entry, after the two copies |
| AccelerationStructures.AccelerationStructure.constructor | Engine/AccelerationStructure.h:1-28 | the object records the given device, kind, storage buffer, structure and scratch buffer |
| AccelerationStructures.AccelerationStructure.Destroy | Engine/AccelerationStructure.cpp:67-69 | destroys the structure and nothing else; its buffers are released separately |
| AccelerationStructures.NewAccelerationStructure | Engine/AccelerationStructure.cpp:7-65 | on success a fresh structure of the requested kind in an acceleration-storage buffer of the size the driver asks for, a scratch buffer of the scratch size, and exactly one build of the geometry, using the scratch buffer's address, added to the GPU timeline; when a buffer cannot be created nothing reaches the GPU timeline |
| RtxModels.Negate | Engine/RTXModel.cpp:99 | unary minus on a float keeps every bit but the sign and flips the sign |
| RtxModels.NegateInvolutive | Engine/RTXModel.cpp:99 | negating twice gives back the original float |
| RtxModels.EncodeVertex | Engine/RTXModel.cpp:126 | a vertex occupies 12 bytes |
| RtxModels.EncodeColor | Engine/Face.h:1-11 | a colour occupies 12 bytes |
| RtxModels.EncodeFace | Engine/RTXModel.cpp:146 | a face occupies 24 bytes |
| RtxModels.VertexOf | Engine/RTXModel.cpp:97-100 | the vertex of an index entry copies x and z of the named position and holds the negation of its y |
| RtxModels.ShapeVertices | Engine/RTXModel.cpp:96-103 | one vertex per index entry of the shape |
| RtxModels.ShapeFaces | Engine/RTXModel.cpp:104-113 | one face per material id, the k-th holding the diffuse and emitted colour of the k-th id's material |
| RtxModels.LoadedVertices | Engine/RTXModel.cpp:95-103 | one vertex per index entry over all shapes loaded so far |
| RtxModels.LoadedFaces | Engine/RTXModel.cpp:95-113 | one face per material id over all shapes loaded so far |
| RtxModels.IdentityIndices | Engine/RTXModel.cpp:102 | the index array has one entry per position |
| RtxModels.IdentityIndicesStep | Engine/RTXModel.cpp:102 | pushing `indices.size()` extends the identity array by one entry |
| RtxModels.IdentityIndicesName | Engine/RTXModel.cpp:101-102 | below 2^32 entries, index i names vertex i and is in range, so the index buffer adds no vertex sharing |
| RtxModels.ShapeVerticesStep | Engine/RTXModel.cpp:96-101 | one more index entry appends exactly its vertex |
| RtxModels.ShapeFacesStep | Engine/RTXModel.cpp:104-112 | one more material id appends exactly its face |
| RtxModels.Pack | Engine/RTXModel.cpp:55-60 | the 24-bit field and the 8-bit field of an instance word are recovered by `% 2^24` and `/ 2^24` |
| RtxModels.EncodeInstance | Engine/RTXModel.cpp:62-64 | the instance occupies 64 bytes |
| RtxModels.DecodeEncodeInstance | Engine/RTXModel.cpp:48-64 | decoding the 64 instance bytes gives back the transform, custom index, mask, hit group offset, flags and structure reference that were written |
| RtxModels.ModelInstance | Engine/RTXModel.cpp:48-60 | the one instance fits its bit-fields: identity transform, custom index 0, mask 0xFF, hit group 0, facing culling disabled |
| RtxModels.AppendShapeVertices | Engine/RTXModel.cpp:96-103 | the index loop of a shape appends that shape's vertices and keeps the indices the identity, one per vertex |
| RtxModels.AppendShapeFaces | Engine/RTXModel.cpp:104-113 | the material loop of a shape appends that shape's faces |
| RtxModels.RtxModel.constructor | Engine/RTXModel.h:1-53 | an empty model: no vertices, indices, faces, buffers or structures |
| RtxModels.RtxModel.AppendShapes | Engine/RTXModel.cpp:95-114 | appends every shape's vertices and faces, in order, keeping one identity index per vertex |
| RtxModels.RtxModel.UploadBuffers | Engine/RTXModel.cpp:116-122 | the counts are the array sizes in `uint32_t`; on success each device-local buffer holds exactly the counted elements' bytes, and the three staging copies run in order |
| RtxModels.RtxModel.UploadCounted | Engine/RTXModel.cpp:120-153 | each device-local buffer holds the bytes of the first `count` elements of its array, at the driver's address, after three whole-buffer copies |
| RtxModels.RtxModel.BuildAccelerationStructures | Engine/RTXModel.cpp:17-81 | a bottom-level structure over the `nbIndices / 3` triangles read through the vertex and index addresses, an instance buffer holding the one instance of it, and a top-level structure over that instance, built in that order |
| RtxModels.RtxModel.BuildTopLevel | Engine/RTXModel.cpp:48-81 | the instance buffer holds the encoded model instance referencing the bottom-level structure's address, and the top-level build runs after everything before |
| RtxModels.RtxModel.Construct | Engine/RTXModel.cpp:14-82 | a loader failure throws its warnings and errors; success leaves the loaded arrays, their `uint32_t` counts, the vertex, index and face buffers each holding exactly the counted elements' bytes, the three structures, the instance and the uploads then the builds on the GPU timeline |
| RtxModels.RtxModel.Load | Engine/RTXModel.cpp:84-123 | a loader failure throws its warnings and errors and changes nothing; otherwise the arrays grow by the file's vertices and faces, the counts are their sizes, the three uploads run, and the vertex, index and face buffers hold exactly the counted elements' bytes |
| RtxModels.VertexBytes | Engine/RTXModel.cpp:125-131 | the vertex buffer is 12 bytes per vertex |
| RtxModels.VertexSlot | Engine/RTXModel.cpp:22-30 | vertex i is the 12 bytes at offset `12 * i`, the stride the bottom-level build reads with |
| RtxModels.FaceBytes | Engine/RTXModel.cpp:145-151 | the face buffer is 24 bytes per face |
| RtxModels.FaceSlot | Engine/RTXModel.cpp:145-151 | face i is the 24 bytes at offset `24 * i` |
| RtxModels.UploadCopies | Engine/RTXModel.cpp:125-153 | three copies, each of a whole staging buffer into the device-local buffer made after it |
| RtxModels.UploadArrays | Engine/RTXModel.cpp:120-122 | the vertex, index and face buffers, in that order, each device-local at the driver's address and holding exactly its bytes, after the three copies |
| RtxModels.UploadIndicesAndFaces | Engine/RTXModel.cpp:135-153 | the index then the face buffer, each holding exactly its bytes, after their two copies |
| RtxModels.StructureBuilds | Engine/RTXModel.cpp:38-81 | two builds, bottom level then top level |
| RtxModels.NewRtxModel | Engine/RTXModel.cpp:14-82 | a loader failure throws its warnings and errors; a built model holds the file's vertices (y negated) and faces, identity indices, counts equal to the array sizes, mesh buffers holding exactly those elements' bytes, the instance referencing its bottom-level structure, and the uploads then the two builds on the GPU timeline |
| Bytes.DecodeEncodeU32 | Engine/Buffer.cpp:114-119 | a `uint32_t` copied into a buffer as four little-endian bytes reads back as the same value |
| Bytes.EncodeDecodeU32 | Engine/Buffer.cpp:114-119 | every four bytes of a buffer are the encoding of exactly one `uint32_t` |
| Bytes.DecodeEncodeU64 | Engine/RTXModel.cpp:62-64 | a 64-bit device address copied into the instance buffer reads back as the same address |
| Bytes.SerializeSlot | Engine/RTXModel.cpp:125-153 | in an array of fixed-size records copied into a buffer, record `i` occupies exactly bytes `[i * stride, (i + 1) * stride)` |
| Bytes.ReadBackU32 | Engine/RTXModel.cpp:135-143 | reading entry `i` of an uploaded index array back from the buffer's bytes gives index `i` |
| Vulkan.ToU32 | Engine/SwapChain.cpp:256-261 | `static_cast<uint32_t>` keeps every value already in range, never grows a non-negative value, and differs from its argument by a multiple of 2^32 |
| FrameCommands.CopyToBackImage | Engine/SwapChain.cpp:195-211 | the frame's command buffer gains, in order, the output image into TRANSFER_SRC, the back image into TRANSFER_DST, the full-extent copy and the back image into PRESENT_SRC; the barrier returning the output image to GENERAL has already executed, in its own one-shot submission |
| FrameCommands.BackImageCopyConforms | Engine/SwapChain.cpp:195-211 | with the output image in GENERAL, the recorded copy follows the layout protocol and leaves the output image in TRANSFER_SRC and the back image in PRESENT_SRC, ready to present |
| Raytracers.PoolMatchesLayout | Engine/Raytracer.cpp:21-105 | the pool holds, entry for entry, the type and count of each of the six layout bindings, and the bindings are numbered 0 to 5 in order |
| Raytracers.DescriptorWrites | Engine/Raytracer.cpp:126-207 | six writes, the i-th to binding i of the set with that binding's type and count; binding 0 is the top-level structure, binding 1 the output view in GENERAL, binding 5 the uniform buffer with the uniform's size |
| Raytracers.SbtSize | Engine/Raytracer.cpp:298-299 | the group count times the aligned handle size, whenever that product fits in `uint32_t` |
| Raytracers.HandleReadsInBounds | Engine/Raytracer.cpp:299-316 | with three groups and no wrap-around, the three handle reads at offsets 0, `alignment` and `2 * alignment` stay inside the storage if and only if the handle size does not exceed the alignment |
| Raytracers.LastMove | Engine/Raytracer.cpp:357-359 | the index of the last recorded frame on which the camera moved, with no move after it; none exactly when the camera never moved |
| Raytracers.StandingFramesCounts | Engine/Raytracer.cpp:357-373 | without wrap-around, `standingFrames` is the number of frames recorded since the last one on which the camera moved (that one included), or of all frames when it never moved |
| Raytracers.TraceCommands | Engine/Raytracer.cpp:351-365 | five commands ending with the trace, which writes the output image |
| Raytracers.Pushed | Engine/Raytracer.cpp:357-359 | the pushed count never exceeds the counter it comes from (it is zero after a move) |
| Raytracers.PushesCovered | Engine/Raytracer.cpp:252-258 | both pushes of a frame lie inside the pipeline's declared push-constant ranges, and the two ranges do not overlap |
| Raytracers.FrameRecording | Engine/Raytracer.cpp:351-366 | a recorded frame holds nine commands |
| Raytracers.FrameTimeline | Engine/Raytracer.cpp:351-371 | a frame puts ten commands on the GPU timeline |
| Raytracers.SteadyFrameConforms | Engine/Raytracer.cpp:344-371 | a frame that finds the output image in TRANSFER_SRC follows the layout protocol, leaving the output image in TRANSFER_SRC and the back image in PRESENT_SRC |
| Raytracers.FirstFrameBreaksProtocol | Engine/Raytracer.cpp:111-112 | the first frame after `createDescriptorSet`, which leaves the output image in GENERAL, breaks the layout protocol at its first barrier, which names TRANSFER_SRC as the old layout |
| Raytracers.SteadyFramesConform | Engine/Raytracer.cpp:344-371 | from TRANSFER_SRC, any number of frames follow the protocol and return the output image to TRANSFER_SRC, provided no back image is the output image |
| Raytracers.ReleaseCalls | Engine/Raytracer.cpp:108-110 | replacing the output image releases something exactly when there was an image before |
| Raytracers.StorageRead | Engine/Raytracer.cpp:299-316 | the `size` bytes read from `offset` of the handle storage; bytes inside the storage are the handles' own, and a read past its end (a handle larger than its alignment) takes the host bytes that follow it |
| Raytracers.NewSbtBuffer | Engine/Raytracer.cpp:308-316 | a shader binding table buffer holding exactly the `size` bytes read from `offset` of the handle storage, past its end included, at the driver's device address |
| Raytracers.CountersStep | Engine/Raytracer.cpp:372-373 | one completed record keeps both counters equal to their reference values modulo 2^32 |
| Raytracers.Raytracer.constructor | Engine/Raytracer.h:46-61 | nothing created yet: no buffers, regions empty, no output image, both counters 0 and no frames recorded |
| Raytracers.Raytracer.CreateDescriptorSetLayout | Engine/Raytracer.cpp:21-79 | succeeds exactly when the driver does, with a new layout handle created from the six bindings (acceleration structure and storage image for ray generation, three storage buffers for closest hit, the uniform buffer); otherwise "failed to create RT descriptor set layout!" |
| Raytracers.Raytracer.CreateUniformBuffer | Engine/Raytracer.cpp:334-342 | a new uniform buffer of the uniform's size, unwritten; a refused buffer fails with "failed to create buffer!" |
| Raytracers.Raytracer.CreateDescriptorPool | Engine/Raytracer.cpp:81-106 | succeeds exactly when the driver does, with a new pool handle created from the six pool sizes of one descriptor each and at most one set; otherwise "failed to create RT descriptor pool!" |
| Raytracers.Raytracer.CreateDescriptorResources | Engine/Raytracer.cpp:14-16 | the layout, uniform buffer and pool in that order, the first failure ending the construction with its message; on success the layout's bindings and the pool's sizes and set limit are the source's tables |
| Raytracers.Raytracer.CreatePipeline | Engine/Raytracer.cpp:210-283 | appends three well-formed groups, ray generation and miss as general groups on stages 0 and 1 and a triangles hit group on stage 2, sets the two raygen push-constant ranges, and creates the layout and pipeline from the three stages with a maximum recursion depth of 2, without checking either result |
| Raytracers.Raytracer.CreateShaderBindingTable | Engine/Raytracer.cpp:285-332 | fails with "failed to get RT SBT handles!" when the handles cannot be read; otherwise each group's buffer holds the `handleSize` bytes read at offset 0, `alignment` or `2 * alignment` of the handle storage (past its end when the handle is larger than its alignment), and each region is one aligned entry at its buffer's address |
| Raytracers.Raytracer.ReplaceOutputImage | Engine/Raytracer.cpp:108-110 | a new RGBA8 output image of the swap chain's size replaces the old one, which is destroyed; on failure nothing changes |
| Raytracers.Raytracer.NewOutputImage | Engine/Raytracer.cpp:108-112 | the new output image, and one barrier from UNDEFINED to GENERAL run in its own one-shot submission |
| Raytracers.Raytracer.WriteDescriptorSet | Engine/Raytracer.cpp:115-207 | fails with "failed to allocate RT descriptor sets!" exactly when allocation does, calling nothing; otherwise a new set updated with the six writes |
| Raytracers.Raytracer.CreateDescriptorSet | Engine/Raytracer.cpp:107-208 | on success the output image is new, of the swap chain's size, in GENERAL after the only GPU work it caused, with its colour view written into the new descriptor set beside the scene and the uniform; a failed view or allocation fails |
| Raytracers.Raytracer.RecordTrace | Engine/Raytracer.cpp:351-365 | appends the trace commands to the buffer and changes nothing else |
| Raytracers.Raytracer.RecordFrame | Engine/Raytracer.cpp:351-366 | appends the trace and the back-image copy to the buffer; the return barrier runs at once in its own submission |
| Raytracers.Raytracer.RecordCommandBuffer | Engine/Raytracer.cpp:344-374 | a failed begin throws with nothing recorded and the counters unchanged; otherwise the buffer gets the frame with the standing count reset when the camera moved; a failed end throws with the counters not advanced; success advances both counters by one in `uint32_t` and keeps them tracking the recorded frames |
| Raytracers.Raytracer.RecordBegun | Engine/Raytracer.cpp:351-374 | `recordCommandBuffer` after a successful begin, with the same outcome |
| Raytracers.Raytracer.EndRecording | Engine/Raytracer.cpp:368-373 | ends the buffer; a failed end throws without waiting or advancing; otherwise waits for the device and advances both counters |
| Raytracers.Raytracer.AdvanceCounters | Engine/Raytracer.cpp:372-373 | both counters go up by one modulo 2^32 and keep tracking the recorded frames |
| Raytracers.NewRaytracerPipeline | Engine/Raytracer.cpp:12-16 | fails with the layout's message when the layout fails; on success a fresh raytracer on the device whose layout, pool and pipeline were created from the source's tables (six bindings, six pool sizes, one set, three stages, the three groups in order, two push-constant ranges, recursion depth 2), a uniform buffer of the uniform's size, an empty callable region, no output image and counters that track no frames; no host call is logged |
| Raytracers.NewRaytracer | Engine/Raytracer.cpp:12-19 | fails with the layout's message when the layout fails; on success the layout, pool and pipeline created from the source's tables (six bindings, six pool sizes, one set, three stages, the groups raygen, miss and triangles hit in that order, two push-constant ranges, recursion depth 2), a uniform buffer of the uniform's size, three binding table buffers holding the bytes read at offsets 0, `alignment` and `2 * alignment` of the handle storage, regions of one aligned entry at each buffer's address, an empty callable region, no output image yet, and counters that track no frames; no host call is logged and no GPU work runs |
| SwapChains.ChooseSwapSurfaceFormat | Engine/SwapChain.cpp:213-223 | the result is one of the offered formats: sRGB BGRA8 in the non-linear sRGB colour space whenever that pair is offered, the first offered format otherwise |
| SwapChains.ChooseSwapPresentMode | Engine/SwapChain.cpp:225-242 | MAILBOX (with vsync) or IMMEDIATE (without) exactly when that mode is offered, FIFO otherwise; the result is FIFO or an offered mode |
| SwapChains.Clamp | Engine/SwapChain.cpp:256-261 | the value when it lies in the range, else the nearer bound; always within a non-empty range |
| SwapChains.ChooseSwapExtent | Engine/SwapChain.cpp:244-265 | the surface's current extent unless its width is 0xFFFFFFFF; then each side lies within the surface's limits and equals the window's size whenever that size already lies within them |
| SwapChains.NegativeWidthClampsHigh | Engine/SwapChain.cpp:253-258 | a negative window width wraps in the `uint32_t` cast and is clamped to the maximum width, not the minimum |
| SwapChains.ImageCount | Engine/SwapChain.cpp:75-79 | never above a nonzero maximum; one more than the minimum when that fits under the maximum (or there is none); at least the minimum when the minimum does not exceed the maximum; 0 when the minimum is `UINT32_MAX` and the addition wraps |
| SwapChains.ViewsOf | Engine/SwapChain.cpp:163-170 | one view per image, the k-th a colour view of the k-th image in the swap chain format |
| SwapChains.FramebuffersOf | Engine/SwapChain.cpp:172-193 | one framebuffer per view, the k-th attaching the k-th view and the rasterizer's depth view, at the swap chain's size with one layer, for the rasterizer's render pass |
| SwapChains.DestroyFramebufferCalls | Engine/SwapChain.cpp:134-136 | one destroy call per framebuffer, the k-th destroying the k-th |
| SwapChains.DestroyViewCalls | Engine/SwapChain.cpp:138-140 | one destroy call per image view, the k-th destroying the k-th |
| SwapChains.CleanupDestroysEach | Engine/SwapChain.cpp:126-143 | `cleanup` destroys every framebuffer and every swap chain image view, and the swap chain last, with three fixed calls beside them |
| SwapChains.CleanupOnlyDestroys | Engine/SwapChain.cpp:126-143 | every call `cleanup` makes destroys a view, a framebuffer or the swap chain, or frees memory |
| SwapChains.NoFrameWorkAppend | Engine/SwapChain.cpp:145-161 | joining two call lists free of frame work (fence or buffer resets, begins, submits, presents) keeps them free of it |
| SwapChains.PollCalls | Engine/SwapChain.cpp:148-151 | each extra size poll is two calls, none of them frame work |
| SwapChains.PollCallsAlternate | Engine/SwapChain.cpp:148-151 | the extra polls alternate a size query and an event wait |
| SwapChains.PollsNeeded | Engine/SwapChain.cpp:146-151 | the number of extra polls is the index of the first nonzero window size: every earlier size has a zero side |
| SwapChains.TeardownWaitsFirst | Engine/SwapChain.cpp:145-155 | `recreate` only queries the size and waits for events until the size is nonzero, then waits for the device, and only after that destroys or frees anything |
| SwapChains.RecreateDoesNoFrameWork | Engine/SwapChain.cpp:145-161 | a `recreate`, whether it succeeds or not, resets, begins, submits and presents nothing |
| SwapChains.RaytracerRecordCalls | Engine/Raytracer.cpp:344-371 | the ray tracer's record is nine host calls and starts by beginning the slot's command buffer |
| SwapChains.RaytracerRecordResetsNoFence | Engine/Raytracer.cpp:344-371 | the ray tracer's record resets no fence |
| SwapChains.FenceResetBeforeRecording | Engine/SwapChain.cpp:298-338 | in a frame that renders, the slot's fence is reset exactly once, before the command buffer is begun or anything is submitted, and the frame ends by submitting the buffer it reset with that fence |
| SwapChains.SwapChain.constructor | Engine/SwapChain.h:37-75 | the object before its creation steps: no images, views, framebuffers or frame slots, slot 0, ray tracing on, vsync off, no pending resize |
| SwapChains.SwapChain.FramebufferResizeCallback | Engine/Context.h:24-29 | the resize flag is set |
| SwapChains.SwapChain.Create | Engine/SwapChain.cpp:65-124 | the creation is logged with the chosen format, present mode, extent, image count and sharing mode (concurrent across the two families when they differ); the window size is queried only when the surface leaves the extent open; it fails with "failed to create swap chain!" exactly when the driver refuses, and otherwise keeps the driver's images, the chosen format and the chosen extent |
| SwapChains.SwapChain.CreateImageResources | Engine/SwapChain.cpp:19-24 | succeeds exactly when the swap chain, every view and every framebuffer are created; then every image has its view and its framebuffer |
| SwapChains.SwapChain.CreateFrameSlots | Engine/SwapChain.cpp:25-26 | succeeds exactly when every slot's synchronisation objects and the command buffers are created; then the swap chain is valid at slot 0 with empty command buffers |
| SwapChains.SwapChain.LogCreate | Engine/SwapChain.cpp:66-110 | the calls `create` makes before the swap chain exists |
| SwapChains.SwapChain.CreateImageViews | Engine/SwapChain.cpp:163-170 | succeeds exactly when every view is created, leaving one colour view per image; otherwise "failed to create texture image view!" with the views unchanged |
| SwapChains.SwapChain.CreateFramebuffers | Engine/SwapChain.cpp:172-193 | succeeds exactly when every framebuffer is created, leaving one per view; otherwise "failed to create framebuffer!" with the framebuffers unchanged |
| SwapChains.SwapChain.CreateSyncObjects | Engine/SwapChain.cpp:367-390 | succeeds exactly when all three objects of every slot are created, giving each slot a distinct new image-available semaphore, render-finished semaphore and in-flight fence; otherwise "failed to create synchronization objects for a frame!" |
| SwapChains.SwapChain.CreateCommandBuffers | Engine/SwapChain.cpp:267-280 | succeeds exactly when the allocation does, giving each slot a new, empty command buffer and leaving every existing recording alone; otherwise "failed to allocate command buffers!" with nothing called or recorded |
| SwapChains.SwapChain.Cleanup | Engine/SwapChain.cpp:126-143 | destroys the output view when there is one, the depth view and memory, every framebuffer, every swap chain view and the swap chain, in that order |
| SwapChains.SwapChain.DestroyFramebuffers | Engine/SwapChain.cpp:134-136 | one destroy call per framebuffer, in order |
| SwapChains.SwapChain.DestroyImageViews | Engine/SwapChain.cpp:138-140 | one destroy call per swap chain image view, in order |
| SwapChains.SwapChain.WaitForFramebufferSize | Engine/SwapChain.cpp:146-151 | returns the first nonzero window size, after one size query plus one query and one event wait per zero size before it |
| SwapChains.SwapChain.Recreate | Engine/SwapChain.cpp:145-161 | keeps the swap chain valid and the frame slots untouched; its calls are the polls, the idle wait, the destruction of the old objects and their creation; it succeeds exactly when the swap chain, every view and every framebuffer are created, and then every new image has its view and framebuffer over the refreshed rasterizer |
| SwapChains.SwapChain.TearDown | Engine/SwapChain.cpp:146-155 | the size polls, the idle wait and `cleanup`, in that order |
| SwapChains.SwapChain.Rebuild | Engine/SwapChain.cpp:157-160 | the creation half of `recreate`, with the same success condition and result as `Recreate` |
| SwapChains.SwapChain.RecreateImageResources | Engine/SwapChain.cpp:158-160 | the views, the rasterizer's refresh (called only once the views exist) and the framebuffers, succeeding exactly when all are created |
| SwapChains.SwapChain.DrawFrame | Engine/SwapChain.cpp:282-365 | waits on the slot's fence and acquires; out of date recreates, keeps the slot and runs nothing; another failed acquire throws; otherwise a successful frame means the submit succeeded, the slot's work ran on the GPU after all earlier work, the calls are the render calls, the present on the slot's render-finished semaphore, a recreate exactly when the present or the window asks for it, and the present-queue wait, and the slot advances modulo `MAX_FRAMES_IN_FLIGHT`; a successful frame clears the resize flag, an out-of-date acquire leaves it alone, and a frame that does not recreate leaves the swap chain, its images, format, extent, views, framebuffers and the depth resources as they were; no recreate during a frame does frame work; the ray tracer's counters stay consistent |
| SwapChains.SwapChain.RecreateDuringFrame | Engine/SwapChain.cpp:291-293 | the recreate inside `drawFrame` makes calls and none of them is frame work |
| SwapChains.SwapChain.RenderAndPresent | Engine/SwapChain.cpp:298-364 | after a good acquire, the frame's outcome as `DrawFrame` states it: on success the resize flag is clear, and without a recreate the swap chain and its images, views and framebuffers are unchanged |
| SwapChains.SwapChain.RenderFrame | Engine/SwapChain.cpp:298-338 | succeeds exactly when recording (if ray tracing) and submission succeed, with the matching message otherwise; on success the calls are uniform update, fence reset, buffer reset, record and submit, and the GPU ran the slot's frame: the ray tracer's trace and copy, or the rasterizer's pass |
| SwapChains.SwapChain.ResetSlot | Engine/SwapChain.cpp:298-310 | the uniforms are updated and the slot's fence and command buffer reset; only the slot's recording changes |
| SwapChains.SwapChain.RecordSlot | Engine/SwapChain.cpp:311-316 | the freshly reset buffer ends up holding the ray tracer's frame or the rasterizer's pass; failures only when ray tracing, with the ray tracer's messages |
| SwapChains.SwapChain.RecordRaytraced | Engine/SwapChain.cpp:311-313 | the ray tracer records its frame into the slot's buffer, with the copy into the swap chain image numbered by the slot |
| SwapChains.SwapChain.RecordRasterized | Engine/SwapChain.cpp:314-316 | the rasterizer's pass for the slot and the acquired image is appended to the slot's buffer and nothing else is recorded |
| SwapChains.SwapChain.SubmitSlot | Engine/SwapChain.cpp:318-338 | the submission waits on the slot's image-available semaphore, signals its render-finished semaphore and fences with its in-flight fence; the buffer's commands run exactly when it succeeds; otherwise "failed to submit draw command buffer!" |
| SwapChains.SwapChain.PresentFrame | Engine/SwapChain.cpp:340-364 | presents on the slot's render-finished semaphore; recreates (and clears the resize flag) exactly when the present reports out of date or suboptimal or the window was resized; otherwise a failed present throws; the resize flag is clear afterwards, the swap chain and its images, views and framebuffers are unchanged unless recreated, and the slot advances exactly when the frame succeeds |
| SwapChains.SwapChain.HandlePresentResult | Engine/SwapChain.cpp:354-360 | recreates and clears the resize flag exactly when asked to; otherwise fails with "failed to present swap chain image!" exactly when the present failed; either way the flag is clear afterwards, and without a recreate the swap chain and its images, views and framebuffers are unchanged |
| SwapChains.SwapChain.AdvanceFrame | Engine/SwapChain.cpp:362-364 | waits for the present queue and moves to the next slot, wrapping after the last |
| SwapChains.SwapChain.Refresh | Engine/SwapChain.cpp:392-395 | the rasterizer's descriptor sets are created first; then, on success, a new ray tracing output image of the swap chain's size, moved to GENERAL, with its colour view written into the ray tracer's descriptor set |
| SwapChains.NewSwapChain | Engine/SwapChain.cpp:17-29 | succeeds exactly when every creation step does; the new swap chain is valid at slot 0 and holds one view and one framebuffer per image over the given rasterizer |

## Left out

- Floating point, the camera and the uniform contents: the camera's matrices and the uniform buffer's bytes are not modelled. `updateUniformBuffer` is a logged call. Whether the camera moved is a boolean input, because `getHasMoved` is not defined in any source file of this model.
- GLFW, the OBJ loader (`tinyobjloader`) and the image loader (`stb_image`): what they return is an input.
- Shader loading: `Shader.cpp` is not part of this model. Shader modules are opaque handles.
- `Rasterizer.cpp` is not part of this model. `SwapChains.NewSwapChain` takes the rasterizer's state as a parameter. Recording a rasterized frame is a single opaque command.
- `SwapChains.NewSwapChain`: takes the ray tracer as a parameter. The source builds it at the end of the constructor, after the command buffers.
- `SwapChains.SwapChain.DrawFrame`: when acquisition or presentation asks for `recreate`, the contract states only that no frame work (no fence reset, no submission, no presentation) happens. The exact calls of `recreate` are stated by `SwapChains.SwapChain.Recreate`.
- `SwapChains.SwapChain.DrawFrame`: requires the frame slot to index a swap chain image in ray-tracing mode. The source indexes `swapChainImages[currentFrame]` unchecked.
- `SwapChains.SwapChain.Recreate`: requires the polled window sizes to contain a nonzero size. The source waits for one forever.
- `SwapChains.ChooseSwapSurfaceFormat`: requires a non-empty format list. The source reads `availableFormats[0]` unchecked, and adapter selection only accepts adapters that offer a format.
- `SwapChains.ChooseSwapPresentMode`: the source's two loops over the present modes are merged into one search with the same result.
- `PhysicalDevices.PhysicalDevice.FindQueueFamilies`: the two independent `if`s of the loop body are written as one assignment of two conditional expressions.
- Partial state on failure: when a constructor throws halfway, the model returns the error and leaves the objects created so far in place. The source's unwinding is modelled only where a member object is destroyed by it (`Texture`).
- `SwapChains.SwapChain.CreateImageViews`, `SwapChains.SwapChain.CreateFramebuffers`: on failure the model keeps the old vector. The source first resizes the vector and overwrites entries 0 to i-1 before the failing call throws, so the vector it leaves is partly new.
- `Buffers.Unwritten`: memory the engine never wrote is modelled as zero bytes. In the source its contents are undefined.
- `RtxModels.RtxModel.Construct`, `RtxModels.RtxModel.Load`, `RtxModels.NewRtxModel`: require every face's vertex indices and material index to be in range (`IndicesInRange`). The source indexes the loader's arrays unchecked, including `materials[-1]` for a face without a material, which is undefined behaviour.
- Destructors: the `SwapChain` destructor (`SwapChain.cpp:31-63`) is not modelled, and `Buffer`'s destructor has an empty body.
- `MAX_FRAMES_IN_FLIGHT` is any positive `uint32_t` value rather than the engine's 2 (`TOXEngine.h`). The frame-slot contracts are proved for every such count, 2 included.
- Queue priorities are real numbers and are carried as values only.
- Concurrency between the host and the GPU: fences and semaphores are logged calls. Submission order is the only GPU order modelled.
