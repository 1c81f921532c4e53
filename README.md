# DemoEngine2 Vulkan core, modelled in Dafny

DemoEngine2 is a small C++ rendering engine. This project models the deterministic core of its Vulkan backend and proves properties of that model. The core covers:

- **Device and swapchain setup.** The engine searches for queue families, checks extensions and layers, judges device suitability, and chooses a physical device. It picks the present mode, surface format, extent, image count, image sharing, depth format and MSAA sample count. It builds one queue create info per distinct family.
- **GPU resources.** The model covers buffers, images, memory-type selection, memory allocation, teardown, and the one-shot command-buffer protocol used for copies.
- **Render pass and pipeline lookup.** The render pass description is modelled, and so is the lookup of pipelines and layouts by shader type and blend mode.
- **Registries.** The resource registry (`IResourceManager`) and the scene manager (`ISceneManager`) are vector-backed tables with first-match lookup.
- **Model import.** `Model::Load`, `ProcessNode` and `ProcessMesh` flatten an Assimp scene tree. The copy and move semantics of `Mesh` and `Model` are modelled, as is `Model::Render`.
- **The engine's bookkeeping.** This covers `LoadTexture` and `LoadModel`, and the vertex and index buffer uploads through the staging buffer. It covers the dynamic uniform buffer: the stride rounding, and one world matrix per model slot in `CreateUniformBuffers` and `Update`. It covers the per-frame `Render` loop with its fences, and `BeginDraw`'s framebuffer pairing.
- **Small utilities.** The primitive shape tables, the string helpers of `UtilsCommon.h`, and the layout conversions of `Matrix.h`.

The Vulkan driver is a `Device` object (`vulkan.dfy`). It hands out handles in increasing order, with 0 as `VK_NULL_HANDLE`. It records every call it receives, in order, in a log of `DeviceCall` values. Its answers to queries are fixed when it is built: memory properties and buffer memory requirements. Methods that talk to the GPU are therefore specified by the exact calls they append to that log.

The engine's frame loop records its queue calls in a separate log of `FrameCall` values. The fence discipline is a predicate on that log, and `Render` preserves it.

Source classes whose fields are updated in place are Dafny classes: `Buffer`, `Image`, `Pipeline`, `ResourceManager`, `SceneManager`, `Model`, `ShapeTable` and `GraphicsEngine`. Values are datatypes: meshes, create infos, the Assimp scene, and matrices. The selection logic is made of functions. Where the source has a loop, so does the model, with its invariants. This covers the queue-family scan, memory-type scan, queue-info dedup, slot writes, texture and mesh loops, buffer loop, `BeginDraw` loop and registry teardown.

## Files

| file | module | models |
|---|---|---|
| wrappers.dfy | Wrappers | `Option`, `Result` and the `Outcome` of a call that may throw |
| vulkan.dfy | Vulkan | handles, enumerations, create-info records, the `Device` and its call log |
| geometry.dfy | Geometry | vectors and `Vertex` (Structures/Vertex.h) |
| common.dfy | UtilsCommon | UtilsCommon.h |
| matrix.dfy | Matrix | Structures/Matrix.h |
| swapchain.dfy | SwapchainPolicy | the surface and swapchain selectors of GraphicsEngineVK.cpp |
| device_selection.dfy | DeviceSelection | queue families, extension and layer checks, device choice, queue create infos |
| mappable.dfy | MappableVK | Interfaces/IMappableVK.h |
| utils_vk.dfy | UtilsVK | GLVK/VK/UtilsVK.h |
| buffer.dfy | BufferVK | GLVK/VK/BufferVK.cpp |
| image.dfy | ImageVK | GLVK/VK/ImageVK.cpp |
| pipeline.dfy | PipelineVK | GLVK/VK/PipelineVK.cpp and .h |
| resource_manager.dfy | ResourceRegistry | Interfaces/IResourceManager.h |
| scene_manager.dfy | SceneManagement | Interfaces/ISceneManager.h |
| shapes.dfy | Shapes | the shape tables of Interfaces/IGraphics.h |
| model.dfy | ModelImport | Structures/Model.h |
| dynamic_buffer.dfy | DynamicBuffer | the stride and slot writes of the dynamic uniform buffer |
| engine.dfy | GraphicsEngineVK | the loading, upload, uniform-buffer and frame-loop code of GraphicsEngineVK.cpp, plus `Model::Load`, `ProcessNode` and `ProcessMesh` |

## Behaviour of the code that the model keeps

- **Cached models.** `LoadModel` copies a cached model's meshes. The `Mesh` copy constructor drops the buffers, so every copied mesh gets fresh vertex and index buffers. The buffers are not shared. `GraphicsEngineVK.GraphicsEngine.LoadModel` and `BuffersFreshAndDistinct` state this.
- **Memory-type search.** `GetMemoryTypeIndex` returns type 0 when no memory type qualifies (`MemoryTypeFallbackIgnoresProperties`).
- **Teardown order.** Destroying a `Buffer` (`~Buffer`, through `Dispose` when not yet disposed) or an `Image` (`~Image`: the view, then the image when it owns memory) destroys the Vulkan handles first. The base destructor `~IMappable` then frees the memory last (`Buffer.TeardownCalls`, `Image.TeardownCalls`). `Buffer::Dispose` itself only destroys the buffer and sets the flag.
- **Stride.** The dynamic-buffer stride is rounded up with a bit mask. That yields a multiple of the alignment only for power-of-two alignments, which Vulkan guarantees. `StrideIsLeastMultiple` is stated for those.
- **Layer check.** `CheckLayerSupport` accepts as soon as any one requested layer is available.
- **Pipeline permutations.** The per-blend-mode pipeline build is empty or undeclared in the code, so "one pipeline per blend mode" cannot be shown. `BlendModesSelectDistinctSlots` states only what the lookup guarantees once such a table exists.
- **As written, with one exception.** The engine-level members follow the code as written where the code's behaviour is defined. They record the MSAA count of `GetMsaaSampleCounts` as written. They let `emplace_back` relocate meshes and drop their placement. The exception is `ResourceManager::GetResource`: as written, it reads past the end of the registry. That is undefined behaviour, so the engine uses the corrected lookup (see Findings and Left out).

## Model

| member | source | states |
|---|---|---|
| UtilsCommon.BlendIndex | UtilsCommon.h:17-20 | the position of a blend mode in declaration order is at most 9, and it is 9 exactly for the End sentinel |
| UtilsCommon.BlendModeAt | UtilsCommon.h:17-20 | converting a position 0..9 back to an enumerator gives the enumerator with that position |
| UtilsCommon.BlendIndexInjective | UtilsCommon.h:17-20 | distinct blend modes have distinct positions, and position-to-mode inverts mode-to-position |
| UtilsCommon.ThrowIfFailed | UtilsCommon.h:52-55 | the helper always raises, and the error carries the given message |
| UtilsCommon.Narrow | UtilsCommon.h:85 | the narrowing cast keeps the low eight bits, so a code unit below 256 is unchanged |
| UtilsCommon.WstringToString | UtilsCommon.h:80-88 | the narrow string has one byte per wide character, byte i the narrowing of character i |
| UtilsCommon.GetRandomNumber | UtilsCommon.h:113-126 | the integral draw lies in the closed range [lower, upper] |
| UtilsCommon.RandomCharacters | UtilsCommon.h:130 | the sampling alphabet has 62 characters |
| UtilsCommon.Rank | UtilsCommon.h:130 | every letter or digit occurs in the alphabet, at the position Rank gives |
| UtilsCommon.AlphabetIsTheLiteral | UtilsCommon.h:130 | the alphabet is "A".."Z", then "a".."z", then "0".."9" |
| UtilsCommon.AlphabetRanks | UtilsCommon.h:130 | every alphabet character is a letter or digit whose rank is its own position, so no character repeats |
| UtilsCommon.GetRandomString | UtilsCommon.h:128-134 | the sample has min(length, 62) characters, all from the alphabet, in alphabet order without repeats |
| Matrix.Matrix3x3ElementsRowMajor | Structures/Matrix.h:10-16 | the element constructor stores argument 3i+j as element _ij |
| Matrix.Matrix4x4ElementsRowMajor | Structures/Matrix.h:59-66 | the element constructor stores argument 4i+j as element _ij |
| Matrix.FromXMFloat3x3 | Structures/Matrix.h:18-24 | element _ij of the result is the XMFLOAT3X3's _(i+1)(j+1) |
| Matrix.ToXMFloat3x3 | Structures/Matrix.h:49-52 | the XMFLOAT3X3's _(i+1)(j+1) is element _ij |
| Matrix.XMFloat3x3RoundTrip | Structures/Matrix.h:18-24 | converting to and from XMFLOAT3X3 is the identity in both directions |
| Matrix.FromGlmMat3 | Structures/Matrix.h:26-32 | element _ij of the result is matrix[i][j] |
| Matrix.ToGlmMat3 | Structures/Matrix.h:34-47 | the result is a 3x3 glm matrix with matrix[i][j] equal to _ij, all nine elements overwritten |
| Matrix.GlmMat3RoundTrip | Structures/Matrix.h:26-47 | converting to and from glm::mat3 is the identity in both directions |
| Matrix.FromXMFloat4x4 | Structures/Matrix.h:68-75 | element _ij of the result is the XMFLOAT4X4's _(i+1)(j+1) |
| Matrix.ToXMFloat4x4 | Structures/Matrix.h:108-111 | the XMFLOAT4X4's _(i+1)(j+1) is element _ij |
| Matrix.XMFloat4x4RoundTrip | Structures/Matrix.h:68-111 | converting to and from XMFLOAT4X4 is the identity in both directions |
| Matrix.FromGlmMat4 | Structures/Matrix.h:77-84 | element _ij of the result is matrix[i][j] |
| Matrix.Matrix4x4ToGlmMat3Writes | Structures/Matrix.h:86-106 | the conversion performs sixteen assignments in source order; assignment k writes _(k/4)(k%4) to matrix[k/4][k%4] |
| Matrix.ApplyWrites | Structures/Matrix.h:88-105 | the assignments succeed exactly when all are inside the 3x3 range; otherwise the first out-of-range one is reported, and all before it were in range |
| Matrix.Matrix4x4ToGlmMat3AsWritten | Structures/Matrix.h:86-106 | the as-written conversion either completes or stops at one of its sixteen assignments |
| Matrix.Matrix4x4ToGlmMat3AsWrittenFails | Structures/Matrix.h:92 | the as-written conversion never completes: its fourth assignment, matrix[0][3], is out of range |
| Matrix.Matrix4x4ToGlmMat3 | Structures/Matrix.h:86-106 | the intended conversion yields the upper-left 3x3 block |
| Matrix.InRangeWritesGiveUpperLeftBlock | Structures/Matrix.h:89-99 | every in-range assignment of the as-written conversion agrees with the intended result |
| SwapchainPolicy.GetPresentMode | GLVK/VK/GraphicsEngineVK.cpp:903-914 | mailbox when the surface offers it; otherwise FIFO when offered; otherwise immediate |
| SwapchainPolicy.GetSurfaceFormat | GLVK/VK/GraphicsEngineVK.cpp:892-901 | the BGRA8 / sRGB pair when offered, else the first format offered; the choice is always one of the offered formats |
| SwapchainPolicy.Clamp | GLVK/VK/GraphicsEngineVK.cpp:884-887 | std::clamp: the result lies in [lo, hi], equals v inside the range and the nearer bound outside it |
| SwapchainPolicy.ClampedFramebufferExtent | GLVK/VK/GraphicsEngineVK.cpp:879-888 | the framebuffer size converted to uint32_t and clamped lies within the surface's extent bounds, and is kept unchanged when already inside them |
| SwapchainPolicy.GetExtentAsWritten | GLVK/VK/GraphicsEngineVK.cpp:872-890 | as written: the current extent unless the minimum extent's width is 0xFFFFFFFF, else the clamped framebuffer size |
| SwapchainPolicy.GetExtentAsWrittenReturnsSpecialValue | GLVK/VK/GraphicsEngineVK.cpp:873-876 | on a valid surface whose current extent is the special value 0xFFFFFFFF, the as-written extent is that special value, outside the surface's bounds |
| SwapchainPolicy.GetExtent | GLVK/VK/GraphicsEngineVK.cpp:872-890 | corrected: the current extent unless it is the special value, else the clamped framebuffer size |
| SwapchainPolicy.GetExtentWithinBounds | GLVK/VK/GraphicsEngineVK.cpp:872-890 | on every surface whose capabilities obey the Vulkan rules, the corrected extent lies within the surface's bounds |
| SwapchainPolicy.SwapchainImageCount | GLVK/VK/GraphicsEngineVK.cpp:540-548 | the requested image count lies within [min, max] when there is a maximum; it is min + 1 when that fits; it is min when min equals max |
| SwapchainPolicy.SwapchainImageCountWraps | GLVK/VK/GraphicsEngineVK.cpp:547 | with no maximum and a minimum of 0xFFFFFFFF, the uint32_t increment wraps and the request is 0 images |
| SwapchainPolicy.ImageSharingFor | GLVK/VK/GraphicsEngineVK.cpp:564-580 | the images are shared concurrently exactly when the graphics and present families differ |
| SwapchainPolicy.ImageSharingIsValid | GLVK/VK/GraphicsEngineVK.cpp:564-580 | the sharing setup obeys Vulkan's rule: concurrent sharing names both distinct families; exclusive sharing names none, and only for a single family |
| SwapchainPolicy.SwapchainCreateInfoFor | GLVK/VK/GraphicsEngineVK.cpp:536-582 | every field of the swapchain create info: image count, format, extent, one layer, colour-attachment usage, the sharing of ImageSharingFor for the two families (hence valid), transform, opaque alpha, the present mode GetPresentMode picks: mailbox when offered, else FIFO when offered, else immediate, not clipped, no old swapchain |
| SwapchainPolicy.ChooseDepthFormat | GLVK/VK/GraphicsEngineVK.cpp:916-931 | the first candidate supporting the features under the tiling, else the first candidate; the result is always a candidate |
| SwapchainPolicy.GetDepthFormat | GLVK/VK/GraphicsEngineVK.cpp:933-936 | D32 float when it can be a depth attachment; else D24/S8 when it can; else D32 float |
| SwapchainPolicy.HighestSampleCount | GLVK/VK/GraphicsEngineVK.cpp:943-949 | the result is 1 or a count from 2 to 64 that is set in the mask, and no higher such count is set |
| SwapchainPolicy.GetMsaaSampleCountsAsWritten | GLVK/VK/GraphicsEngineVK.cpp:938-950 | as written: the highest count set in the numerically smaller of the two masks |
| SwapchainPolicy.GetMsaaSampleCountsAsWrittenUnsupported | GLVK/VK/GraphicsEngineVK.cpp:941 | with colour mask 1 or 4 and depth mask 1 or 2, the as-written code picks 2 samples, which colour images do not support |
| SwapchainPolicy.CommonSampleCount | GLVK/VK/GraphicsEngineVK.cpp:941 | a sample count is in the intersection of the masks exactly when it is in both |
| SwapchainPolicy.HighestCommonSampleCount | GLVK/VK/GraphicsEngineVK.cpp:938-950 | the highest count in the intersection is supported by both images, and no higher count is supported by both |
| SwapchainPolicy.GetMsaaSampleCounts | GLVK/VK/GraphicsEngineVK.cpp:938-950 | corrected: the highest sample count both colour and depth images support, else 1 |
| SwapchainPolicy.MsaaAgreesOnPrefixMasks | GLVK/VK/GraphicsEngineVK.cpp:941 | on masks of the form 1, 2, ..., 2^(n-1) the as-written and corrected choices agree |
| DeviceSelection.GetQueueIndices | GLVK/VK/GraphicsEngineVK.cpp:326-349 | the indices are complete exactly when some family does graphics and some family presents; otherwise both are empty. When complete, both families are capable, the scan stopped at the first prefix holding both, and each index is the last capable family up to that point |
| DeviceSelection.CheckExtensionSupport | GLVK/VK/GraphicsEngineVK.cpp:351-362 | supported exactly when every required extension is offered |
| DeviceSelection.CheckLayerSupport | GLVK/VK/GraphicsEngineVK.cpp:277-291 | true exactly when some requested layer is available |
| DeviceSelection.LayerCheckAnyIsAll | GLVK/VK/GraphicsEngineVK.cpp:277-291 | with the single validation layer requested, "some requested layer is available" means "all requested layers are available" |
| DeviceSelection.IsDeviceSuitable | GLVK/VK/GraphicsEngineVK.cpp:299-324 | suitable exactly when the device has graphics and present families, the three features, the swapchain extension, at least one surface format and present mode, and both descriptor-indexing features |
| DeviceSelection.GetPhysicalDevice | GLVK/VK/GraphicsEngineVK.cpp:473-487 | the first suitable device in enumeration order is chosen, with the MSAA count the code records for it, the as-written choice of GetMsaaSampleCountsAsWritten; nothing is chosen exactly when no device is suitable |
| DeviceSelection.CreatedFamiliesAppend | GLVK/VK/GraphicsEngineVK.cpp:499-506 | appending a create info adds its family to the families created |
| DeviceSelection.QueueCreateInfos | GLVK/VK/GraphicsEngineVK.cpp:491-506 | fails exactly when a queue index is missing; otherwise there is one create info per distinct family among graphics and present, each for one queue at priority 1.0 |
| DeviceSelection.DeviceQueueLookupsAsWritten | GLVK/VK/GraphicsEngineVK.cpp:532-533 | as written, both lookups ask for family 0, using the family indices as queue indices |
| DeviceSelection.DeviceQueueLookupsAsWrittenInvalid | GLVK/VK/GraphicsEngineVK.cpp:532-533 | with graphics on family 0 and present on family 1, the as-written present lookup names queue 1 of family 0, which the device was not created with |
| DeviceSelection.DeviceQueueLookups | GLVK/VK/GraphicsEngineVK.cpp:532-533 | corrected: queue 0 of the graphics family and queue 0 of the present family |
| DeviceSelection.DeviceQueueLookupsValid | GLVK/VK/GraphicsEngineVK.cpp:494-533 | every corrected lookup names a queue the logical device was created with |
| MappableVK.MemoryTypeIndexFromIsFirst | Interfaces/IMappableVK.h:36-44 | scanning from a given type on, the result is the first qualifying type when one exists, and 0 when none does |
| MappableVK.MemoryTypeIndexIsFirstQualifying | Interfaces/IMappableVK.h:33-45 | the chosen type is the smallest index whose bit is set in the mask and whose flags contain every wanted property; it is 0 when no type qualifies |
| MappableVK.MemoryTypeFallbackIgnoresProperties | Interfaces/IMappableVK.h:44 | when nothing qualifies, the choice is type 0 even though it lacks the wanted properties |
| MappableVK.GetMemoryTypeIndex | Interfaces/IMappableVK.h:33-45 | the scan returns the index MemoryTypeIndex specifies |
| MappableVK.MapDeviceMemory | Interfaces/IMappableVK.h:47-54 | exactly one allocation is logged, of requirements.size bytes from the chosen memory type, and the new handle is returned |
| MappableVK.ReleaseCalls | Interfaces/IMappableVK.h:17-23 | the teardown frees the memory exactly when a memory handle is held, and does nothing else |
| MappableVK.ReleaseDeviceMemory | Interfaces/IMappableVK.h:17-23 | the device log grows by exactly ReleaseCalls(memory) |
| UtilsVK.ThrowIfFailedResult | GLVK/VK/UtilsVK.h:94-108 | the check throws exactly when the result is not success, and the error carries the message |
| UtilsVK.GetVertexInputAttributeDescription | GLVK/VK/UtilsVK.h:43-66 | three attributes at locations 0, 1, 2 on the given binding, with formats vec3, vec3, vec2; each lies inside one 32-byte vertex and none overlaps the next |
| UtilsVK.GetVertexInputBindingDescription | GLVK/VK/UtilsVK.h:68-76 | the binding and input rate are the ones given, and the stride covers every attribute |
| UtilsVK.SingleTimeCommandsFreeAfterIdle | GLVK/VK/UtilsVK.h:116-156 | a one-shot transfer records the commands between begin and end, and frees its command buffer only after the submit and the queue wait |
| UtilsVK.CreateSingleTimeBuffer | GLVK/VK/UtilsVK.h:116-131 | one primary command buffer is allocated from the pool and begun for a single submission; the new handle is returned |
| UtilsVK.ExecuteCommandBuffer | GLVK/VK/UtilsVK.h:140-156 | end, submit with no semaphores and no fence, wait for the queue to go idle, then free the buffer, in that order |
| BufferVK.Buffer.CreateInfo | GLVK/VK/BufferVK.cpp:7-12 | the buffer is created with the given size and usage, exclusive sharing and no queue-family list |
| BufferVK.Buffer.constructor | GLVK/VK/BufferVK.cpp:4-15 | exactly one buffer is created with that info; no memory is held yet and the buffer is not disposed |
| BufferVK.Buffer.AllocateMemory | GLVK/VK/BufferVK.cpp:54-59 | memory of the buffer's required size is allocated from the chosen type and bound at offset 0; the returned handle is the one recorded |
| BufferVK.Buffer.Dispose | GLVK/VK/BufferVK.cpp:61-65 | the buffer is destroyed once and marked disposed; nothing else changes |
| BufferVK.Buffer.TeardownCalls | GLVK/VK/BufferVK.cpp:17-20 | destruction destroys the buffer exactly when it was not disposed, frees the memory exactly when memory is held, and frees it last |
| BufferVK.Buffer.Destroy | GLVK/VK/BufferVK.cpp:17-20 | the buffer ends up disposed, and the device log grows by exactly the teardown calls of the state before |
| BufferVK.Buffer.BufferCopyRegion | GLVK/VK/BufferVK.cpp:24-27 | the copy region covers size bytes, from offset 0 to offset 0 |
| BufferVK.Buffer.CopyBufferToBuffer | GLVK/VK/BufferVK.cpp:22-32 | one one-shot transfer whose only command copies the region from the source into this buffer |
| BufferVK.Buffer.BufferImageRegion | GLVK/VK/BufferVK.cpp:36-47 | tightly packed rows from offset 0 into mip 0, layer 0 of one layer, covering width x height x 1 |
| BufferVK.Buffer.CopyBufferToImage | GLVK/VK/BufferVK.cpp:34-52 | one one-shot transfer whose only command copies this buffer into the image, in the transfer-destination layout |
| BufferVK.BufferLifecycle | GLVK/VK/BufferVK.cpp:4-65 | a buffer that gets memory is created, allocated and bound, then destroyed once, after which its memory is freed once |
| ImageVK.Image.Wrap | GLVK/VK/ImageVK.cpp:10-13 | an adopted image has no view and no memory |
| ImageVK.Image.ViewCreateInfo | GLVK/VK/ImageVK.cpp:30-43 | the view is of this image, with the given format and type, identity swizzle, mips from 0, one layer from 0 |
| ImageVK.Image.CreateImageView | GLVK/VK/ImageVK.cpp:28-46 | exactly one view is created with that info and recorded; the image and its memory are unchanged |
| ImageVK.Image.TeardownCalls | GLVK/VK/ImageVK.cpp:15-26 | the view is destroyed first, and only if there is one; the image is destroyed, and then its memory freed, exactly when it holds memory |
| ImageVK.Image.Destroy | GLVK/VK/ImageVK.cpp:15-26 | the device log grows by exactly the teardown calls |
| ImageVK.SwapchainImageLifecycle | GLVK/VK/GraphicsEngineVK.cpp:584-590 | a swapchain image given a colour view loses only that view when its wrapper goes: the image, which the swapchain owns, is not destroyed |
| PipelineVK.RenderPassDescription | GLVK/VK/PipelineVK.cpp:16-80 | three attachments (multisampled colour cleared and stored, multisampled depth cleared and stored, single-sample resolve target in present layout), one graphics subpass referencing them in those roles, one dependency from outside on colour-attachment output |
| PipelineVK.RenderPassValidIffMultisampled | GLVK/VK/PipelineVK.cpp:14-84 | the render pass meets Vulkan's subpass rules exactly when the sample count is not 1 |
| PipelineVK.Pipeline.constructor | GLVK/VK/PipelineVK.cpp:3-6 | no render pass, not owned, empty pipeline and layout tables |
| PipelineVK.Pipeline.CreateRenderPass | GLVK/VK/PipelineVK.cpp:82-83 | one new render pass with that description is created and owned; the tables are unchanged |
| PipelineVK.Pipeline.Destroy | GLVK/VK/PipelineVK.cpp:8-12 | the render pass is destroyed exactly when it is owned, and nothing else is issued |
| PipelineVK.Pipeline.GetPipeline | GLVK/VK/PipelineVK.h:28-31 | the pipeline at the blend mode's position in the shader type's list; absent exactly when the shader type is unregistered |
| PipelineVK.Pipeline.GetPipelineLayout | GLVK/VK/PipelineVK.h:33-36 | the layout registered for the shader type; absent exactly when it is unregistered |
| PipelineVK.BlendModesSelectDistinctSlots | GLVK/VK/PipelineVK.h:28-31 | with one distinct pipeline per blend mode, two blend modes select the same pipeline exactly when they are equal |
| ResourceRegistry.FirstIndexOf | Interfaces/IResourceManager.h:68-70 | the first position holding the name, with no earlier entry holding it; absent exactly when no entry has the name |
| ResourceRegistry.FirstIndexAfterAppend | Interfaces/IResourceManager.h:56-62 | appending leaves the entry a registered name finds unchanged (later duplicates are shadowed) and makes an absent name find the new entry |
| ResourceRegistry.Erase | Interfaces/IResourceManager.h:30 | erasing one position keeps every other entry, in order |
| ResourceRegistry.Resources | Interfaces/IResourceManager.h:44-45 | the entries' resources, position by position |
| ResourceRegistry.GetResourceAsWritten | Interfaces/IResourceManager.h:64-73 | nullptr exactly for an empty registry; past the end exactly when the registry is non-empty and lacks the name; otherwise the first entry with the name |
| ResourceRegistry.GetResourceAsWrittenReadsPastTheEnd | Interfaces/IResourceManager.h:64-73 | a registry holding one randomly named texture, asked for a model path, reads past its end |
| ResourceRegistry.ResourceManager.constructor | Interfaces/IResourceManager.h:37-40 | an empty registry with nothing disposed |
| ResourceRegistry.ResourceManager.AddResource | Interfaces/IResourceManager.h:56-62 | the resource is appended under the name and returned; nothing is disposed |
| ResourceRegistry.ResourceManager.AddUnnamedResource | Interfaces/IResourceManager.h:50-54 | the resource is appended and returned under a 7-character name drawn from the alphabet; the earlier entries are unchanged |
| ResourceRegistry.ResourceManager.GetResource | Interfaces/IResourceManager.h:64-73 | the resource of the first entry with the name; absent exactly when no entry has it |
| ResourceRegistry.ResourceManager.RemoveResource | Interfaces/IResourceManager.h:23-31 | the first entry with the name is disposed and erased, the rest kept in order |
| ResourceRegistry.ResourceManager.Destroy | Interfaces/IResourceManager.h:42-47 | every resource is disposed once, in registration order, and the registry is emptied |
| ResourceRegistry.AddThenRemoveRestores | Interfaces/IResourceManager.h:23-31 | adding an absent name and removing it again finds the new entry and restores the registry exactly |
| SceneManagement.Scene.constructor | Interfaces/IScene.h:10-23 | a scene carrying the given name |
| SceneManagement.FirstSceneNamed | Interfaces/ISceneManager.h:50-52 | the first registered scene with the name: it has the name and no earlier scene does |
| SceneManagement.SceneManager.constructor | Interfaces/ISceneManager.h:12 | no scenes, no current scene, nothing forwarded |
| SceneManagement.SceneManager.RegisterScene | Interfaces/ISceneManager.h:40-46 | the scene is renamed, appended last and returned; the current scene is unchanged |
| SceneManagement.SceneManager.SetCurrentScene | Interfaces/ISceneManager.h:48-54 | the first registered scene with the name becomes current |
| SceneManagement.SceneManager.SetCurrentSceneTo | Interfaces/ISceneManager.h:56-60 | the given scene becomes current, registered or not |
| SceneManagement.SceneManager.InitializeScene | Interfaces/ISceneManager.h:20-23 | exactly one Initialize is forwarded, to the current scene |
| SceneManagement.SceneManager.LoadSceneContent | Interfaces/ISceneManager.h:25-28 | exactly one LoadContent is forwarded, to the current scene |
| SceneManagement.SceneManager.UpdateScene | Interfaces/ISceneManager.h:30-33 | exactly one Update with the frame time is forwarded, to the current scene |
| SceneManagement.SceneManager.RenderScene | Interfaces/ISceneManager.h:35-38 | exactly one Render with the frame time is forwarded, to the current scene |
| SceneManagement.RegisterThenSelect | Interfaces/ISceneManager.h:40-54 | registering a scene under a fresh name and selecting that name makes it current; under a name already taken the earlier scene stays selected |
| Shapes.FlipY | Interfaces/IGraphics.h:61-146 | the vertex mirrored in the y axis: position and normal y negated, everything else kept |
| Shapes.CubeData | Interfaces/IGraphics.h:57-166 | 24 vertices and the 36 cube indices |
| Shapes.FlippedCubeIsMirrored | Interfaces/IGraphics.h:61-146 | the flipY cube is the plain cube mirrored in y, vertex by vertex, and every texture coordinate of either is zero |
| Shapes.CubeFacePattern | Interfaces/IGraphics.h:148-157 | face f is drawn as the triangles (4f, 4f+1, 4f+2) and (4f+2, 4f+3, 4f), and every index names one of the cube's vertices |
| Shapes.RectData | Interfaces/IGraphics.h:168-190 | a unit square in the y = 0 plane: four vertices with the up normal and zero texture coordinates, indices 0,1,2,2,3,0 |
| Shapes.RectIgnoresFlipY | Interfaces/IGraphics.h:168-190 | the rect is the same for either flipY setting |
| Shapes.ShapeTable.constructor | Interfaces/IGraphics.h:215 | an empty shape table |
| Shapes.ShapeTable.Emplace | Interfaces/IGraphics.h:165 | a type already present keeps its shape; an absent type gets the new one |
| Shapes.ShapeTable.GenerateCubeData | Interfaces/IGraphics.h:57-166 | the cube for the flipY setting is emplaced under Cube |
| Shapes.ShapeTable.GenerateRectData | Interfaces/IGraphics.h:168-194 | the rect is emplaced under Rect |
| Shapes.ShapeTable.GeneratePrimitiveData | Interfaces/IGraphics.h:206-213 | afterwards Cube and Rect are present, earlier entries are kept, new entries are the generated shapes, and no other type is added |
| ModelImport.MeshVertex | Structures/Model.h:353-371 | the vertex takes the mesh's position and normal at that index, and the first texture-coordinate set's x and y, or zero when the mesh has none |
| ModelImport.ProcessVertices | Structures/Model.h:351-374 | one vertex per mesh vertex, in order, each built as above |
| ModelImport.ProcessFaces | Structures/Model.h:376-383 | the faces' indices concatenated in face order |
| ModelImport.TriangulatedIndices | Structures/Model.h:376-383 | with triangulated faces there are three indices per face and index k is corner k mod 3 of face k div 3 |
| ModelImport.FaceIndicesBounded | Structures/Model.h:376-383 | indices that name vertices of the mesh still do after concatenation |
| ModelImport.LastSlash | Structures/Model.h:388 | the position of the last '/', with none after it; absent exactly when there is no '/' |
| ModelImport.DirectoryOf | Structures/Model.h:388 | the texture directory always ends in '/' |
| ModelImport.DirectoryOfPath | Structures/Model.h:388 | a path d/name whose name has no '/' has directory d/ |
| ModelImport.DirectoryOfBareName | Structures/Model.h:388 | a file name without '/' is kept whole and gets a '/' appended |
| ModelImport.InDirectory | Structures/Model.h:394-404 | every name prefixed with the directory, in order |
| ModelImport.TextureFileNames | Structures/Model.h:385-409 | every diffuse texture path, then every specular texture path, each in the material's order |
| ModelImport.MeshOrderLength | Structures/Model.h:418-438 | the pre-order of ProcessNode appends exactly as many meshes as the subtree's nodes reference |
| ModelImport.ChildrenOrderLength | Structures/Model.h:434-437 | the same for a list of children |
| ModelImport.MeshOrderInScene | Structures/Model.h:418-438 | every mesh index the pre-order yields names a mesh of the scene |
| ModelImport.ChildrenOrderInScene | Structures/Model.h:434-437 | the same for a list of children |
| ModelImport.Radians | Structures/Model.h:243-245 | each component is the degree value times DEGREES_TO_RADIANS, pi/180 to 32 digits; zero stays zero, signs are kept, and 180 degrees lies within 1e-14 of pi |
| ModelImport.PlacementOf | Structures/Model.h:239-246 | position, scale and colour are kept and the rotation converted to radians |
| ModelImport.DefaultMesh | Structures/Model.h:153-168 | a default mesh is empty, without buffers, with zero placement and slot 0 |
| ModelImport.CopyMesh | Structures/Model.h:41-45 | a copy has the geometry and textures but no buffers, a zero placement and slot 0 |
| ModelImport.AssignMesh | Structures/Model.h:52-62 | copy assignment takes the geometry and textures and keeps the target's buffers, placement and slot |
| ModelImport.CopySemantics | Structures/Model.h:41-62 | copying is idempotent, assigning into a default mesh is copying, self-assignment and assigning back restore the mesh |
| ModelImport.MoveMesh | Structures/Model.h:47-50 | geometry, textures and buffers move into a mesh with zero placement; the source keeps only its placement and slot |
| ModelImport.MoveAssignMesh | Structures/Model.h:64-76 | move assignment swaps geometry, textures and buffers and leaves both placements and slots in place |
| ModelImport.MoveAssignSwaps | Structures/Model.h:64-76 | moving back restores both meshes, and self-move-assignment changes nothing |
| ModelImport.EmplaceBack | Structures/Model.h:423 | emplace_back appends the mesh; with spare capacity the earlier meshes are unchanged, and in a full vector each is relocated by the move constructor and so loses its placement and slot |
| ModelImport.EmplaceBackDropsPlacement | Structures/Model.h:47-50 | two meshes emplaced into a vector that starts empty: the first, once given a placement, has lost it after the second emplace |
| ModelImport.MoveMeshWhole | Structures/Model.h:47-50 | the intended move constructor: the moved-to mesh equals the source mesh, and the source is left empty without buffers |
| ModelImport.EmplaceBackIntended | Structures/Model.h:423 | emplace_back with the intended move constructor appends exactly one mesh |
| ModelImport.EmplaceBackIntendedKeepsPlacements | Structures/Model.h:420-432 | with the intended move constructor, emplacing only appends whatever the capacity, so every placed mesh keeps the model's placement |
| ModelImport.Model.EmplaceMesh | Structures/Model.h:423 | the mesh vector becomes EmplaceBack of the old one at the old capacity; the capacity stays when there was room and grows when the vector was full; no other field changes |
| ModelImport.Model.PlaceLast | Structures/Model.h:424-431 | the last mesh takes the model's placement; the other meshes, the capacity and the other fields are unchanged |
| ModelImport.CopyMeshes | Structures/Model.h:179 | a copied mesh vector holds each mesh's copy |
| ModelImport.AssignMeshes | Structures/Model.h:205 | vector assignment of a source that fits the target's capacity: copy-assigns over the existing meshes and copy-constructs the rest, ending with the source's length |
| ModelImport.AssignedMeshesHaveSourceContents | Structures/Model.h:205 | whatever the target held, the assigned vector has the source's geometry and textures, and assigning into an empty vector is copying |
| ModelImport.DynamicOffset | Structures/Model.h:306 | the model index times the stride, in 32-bit arithmetic |
| ModelImport.DynamicOffsetIsSlotStart | Structures/Model.h:306 | without wrap-around the offset is the start of the model's own slot of the dynamic buffer |
| ModelImport.MeshLoopCommands | Structures/Model.h:312-319 | four commands per mesh |
| ModelImport.MeshLoopDraws | Structures/Model.h:312-319 | mesh i's colour push is command 4i and its draw is command 4i+3, drawing all of mesh i's indices |
| ModelImport.Model.constructor | Structures/Model.h:328-338 | no meshes and no vector capacity, zero placement, slot 0, unnamed and not disposed |
| ModelImport.Model.Copy | Structures/Model.h:178-187 | every field is copied, each mesh through the mesh copy constructor, into a vector with room for them |
| ModelImport.Model.Move | Structures/Model.h:195-199 | only the meshes move, with the vector's capacity, and the source is left without any; every other field is default |
| ModelImport.Model.CopyAssign | Structures/Model.h:201-220 | every field is assigned; a source that fits the capacity is copy-assigned over the existing meshes and keeps the capacity, a longer one is copy-constructed throughout into new storage; self-assignment changes nothing |
| ModelImport.Model.AssignMeshVector | Structures/Model.h:205 | `Meshes = source`: with room, the meshes are AssignMeshes of the old ones and the capacity stays; without, they are CopyMeshes of the source, so no earlier buffer or placement survives; no other field changes |
| ModelImport.Model.MoveAssign | Structures/Model.h:222-229 | only the mesh vectors, capacities included, are swapped; self-assignment changes nothing |
| ModelImport.Model.Render | Structures/Model.h:303-320 | absent exactly when the BasicShader pipeline or layout is missing; otherwise bind the pipeline, bind the descriptor set with the model's offset twice, then the commands of every mesh in order |
| DynamicBuffer.AndNotBounds | GLVK/VK/GraphicsEngineVK.cpp:844 | clearing the mask's bits never adds to a value and removes at most the mask |
| DynamicBuffer.AndNotLowBits | GLVK/VK/GraphicsEngineVK.cpp:844 | clearing the k low bits of x gives the greatest multiple of 2^k not above x |
| DynamicBuffer.MultiplesOfPow2Apart | GLVK/VK/GraphicsEngineVK.cpp:844 | two distinct multiples of 2^k are at least 2^k apart |
| DynamicBuffer.Stride | GLVK/VK/GraphicsEngineVK.cpp:840-845 | the matrix size for a zero limit; otherwise, without 64-bit wrap, at least the matrix size |
| DynamicBuffer.StrideIsLeastMultiple | GLVK/VK/GraphicsEngineVK.cpp:840-845 | for a power-of-two alignment the stride is the least multiple of the alignment that holds a matrix |
| DynamicBuffer.SlotInBuffer | GLVK/VK/GraphicsEngineVK.cpp:847-858 | every one of n slots lies inside the stride times n bytes allocated |
| DynamicBuffer.SlotsDisjoint | GLVK/VK/GraphicsEngineVK.cpp:853-858 | distinct slots do not overlap |
| DynamicBuffer.WriteSlot | GLVK/VK/GraphicsEngineVK.cpp:855-857 | the slot holds the matrix and every byte outside it is unchanged |
| DynamicBuffer.WriteSlots | GLVK/VK/GraphicsEngineVK.cpp:853-858 | slot i holds Models[ModelIndices[i]] for every model, and padding between slots is unchanged |
| GraphicsEngineVK.TexturesOf | Structures/Model.h:390-408 | one texture per file, in order, each decoded from that file |
| GraphicsEngineVK.KeptOrRelocatedTransitive | Structures/Model.h:418-438 | meshes kept or relocated over two stretches of appends are kept or relocated over both, since relocating twice is relocating once |
| GraphicsEngineVK.EmplacedThenPlaced | Structures/Model.h:423-431 | after emplacing a mesh and giving it a placement, the earlier meshes are kept or relocated, kept exactly with room and without placement or slot when full, and the last mesh is the emplaced one with that placement |
| GraphicsEngineVK.RelocatedMeshLoaded | Structures/Model.h:47-50 | a relocated mesh is still loaded from its scene mesh, since the move keeps geometry, textures and texture indices |
| GraphicsEngineVK.LoadedInOrderRelocated | Structures/Model.h:418-438 | meshes loaded in scene order stay loaded in that order after the vector relocated any of them |
| GraphicsEngineVK.LoadedInOrderAfterMoreTextures | GLVK/VK/GraphicsEngineVK.cpp:228-230 | loading more textures keeps every texture index a loaded mesh holds valid |
| GraphicsEngineVK.LoadedInOrderAppend | Structures/Model.h:418-438 | meshes loaded for one scene-mesh order followed by meshes loaded for another were loaded for the concatenated order |
| GraphicsEngineVK.LoadedTexturesOfMaterial | Structures/Model.h:385-409 | the textures loaded for the diffuse names and then the specular names are exactly the material's textures from the model's directory |
| GraphicsEngineVK.LoadedTexturesRegistered | GLVK/VK/GraphicsEngineVK.cpp:228-230 | indices handed out consecutively for two batches of textures name those very textures in the engine's list |
| GraphicsEngineVK.MovedMeshPlaced | Structures/Model.h:423-431 | a processed mesh moved into the model and given the model's placement is still the mesh built from that scene mesh, with that placement |
| GraphicsEngineVK.MeshAppended | Structures/Model.h:420-432 | one appended mesh extends what was loaded before by its scene-mesh index, even when the append relocated the earlier meshes |
| GraphicsEngineVK.ChildAppended | Structures/Model.h:434-437 | the meshes a child's subtree appends extend what was loaded before by the child's order, even when appends relocated the earlier meshes |
| GraphicsEngineVK.ChildrenOrderStep | Structures/Model.h:434-437 | the order after c + 1 children is the order after c children followed by child c's subtree |
| GraphicsEngineVK.BuffersKeepGeometry | GLVK/VK/GraphicsEngineVK.cpp:254-258 | giving meshes buffers changes neither their geometry, textures nor placement |
| GraphicsEngineVK.BuffersKeepLoaded | GLVK/VK/GraphicsEngineVK.cpp:254-258 | giving meshes buffers keeps each one what it was loaded from |
| GraphicsEngineVK.BuffersFreshAndDistinct | GLVK/VK/GraphicsEngineVK.cpp:254-258 | every buffer given is a handle the driver had not handed out before, vertex and index buffers never coincide, and no two meshes share one |
| GraphicsEngineVK.SameGeometryTransitive | GLVK/VK/GraphicsEngineVK.cpp:240-258 | sharing geometry is transitive, so a cached model's copy with buffers has the cached geometry |
| GraphicsEngineVK.FrameCalls | GLVK/VK/GraphicsEngineVK.cpp:102-131 | five calls that use the fence safely: the submission waits on the acquire semaphore, runs the frame slot's command buffer and signals the fence, and the present waits on the semaphore the submission signals and shows the acquired image |
| GraphicsEngineVK.FenceDisciplineAppend | GLVK/VK/GraphicsEngineVK.cpp:119-131 | two logs that each reset a fence before submitting with it and wait on it after presenting still do so one after the other |
| GraphicsEngineVK.GraphicsEngine.constructor | GLVK/VK/GraphicsEngineVK.cpp:21-46 | no textures, no models, no staging buffer, frame slot 0, one command buffer, framebuffer, semaphore pair and fence per swapchain image |
| GraphicsEngineVK.GraphicsEngine.StagingTeardown | GLVK/VK/GraphicsEngineVK.cpp:177 | replacing a missing staging buffer destroys nothing |
| GraphicsEngineVK.GraphicsEngine.Stage | GLVK/VK/GraphicsEngineVK.cpp:177-181 | a new transfer-source staging buffer replaces the previous one, which is destroyed after the new one is created; it gets host-visible coherent memory, which is mapped and unmapped |
| GraphicsEngineVK.GraphicsEngine.LoadTexture | GLVK/VK/GraphicsEngineVK.cpp:204-231 | the image is staged, the texture registered under a random name and appended to the engine's textures; the index returned is its position there |
| GraphicsEngineVK.GraphicsEngine.LoadMaterialTextures | Structures/Model.h:390-408 | one texture per name, loaded from the directory in order, with indices counting on from the textures loaded before |
| GraphicsEngineVK.GraphicsEngine.ProcessMesh | Structures/Model.h:343-416 | the mesh is built from the scene mesh, has no buffers and the default placement, and its textures are appended to the engine's and registered at its texture indices |
| GraphicsEngineVK.GraphicsEngine.AppendMesh | Structures/Model.h:420-432 | one processed mesh is emplaced into the model and takes the model's placement; with room the earlier meshes are unchanged, and in a full vector each earlier mesh is relocated and falls back to the default placement and slot 0 |
| GraphicsEngineVK.GraphicsEngine.AppendMeshes | Structures/Model.h:420-432 | the node's scene meshes are appended in mMeshes order, one mesh each, each with the model's placement or, once relocated, the default one |
| GraphicsEngineVK.GraphicsEngine.ProcessNode | Structures/Model.h:418-438 | the model gains the meshes of the subtree in pre-order, each built from its scene mesh, with the model's placement or the default one; earlier meshes are kept or relocated; only the mesh list grows |
| GraphicsEngineVK.GraphicsEngine.LoadInto | Structures/Model.h:237-257 | the placement is set first; the importer error is thrown exactly when there is no scene, it is incomplete or it has no root, changing no meshes; otherwise the whole tree is loaded in pre-order, each mesh with the model's placement or the default one, and the last appended mesh with the model's |
| GraphicsEngineVK.GraphicsEngine.UploadCalls | GLVK/VK/GraphicsEngineVK.cpp:174-202 | fifteen calls beyond the teardown of the old staging buffer |
| GraphicsEngineVK.GraphicsEngine.UploadBuffer | GLVK/VK/GraphicsEngineVK.cpp:174-202 | the bytes are staged, a device-local target of the same size is created and the staging buffer copied into it; the target is returned and the staging buffer kept |
| GraphicsEngineVK.GraphicsEngine.CreateVertexBuffer | GLVK/VK/GraphicsEngineVK.cpp:174-187 | an upload of sizeof(Vertex) bytes per vertex into a new vertex buffer |
| GraphicsEngineVK.GraphicsEngine.CreateIndexBuffer | GLVK/VK/GraphicsEngineVK.cpp:189-202 | an upload of four bytes per index into a new index buffer |
| GraphicsEngineVK.GraphicsEngine.AttachMeshBuffers | GLVK/VK/GraphicsEngineVK.cpp:256-257 | mesh i gets its vertex buffer, then its index buffer; nothing else changes |
| GraphicsEngineVK.GraphicsEngine.AttachVertexBuffer | GLVK/VK/GraphicsEngineVK.cpp:256 | mesh i's vertex buffer is the new upload's target |
| GraphicsEngineVK.GraphicsEngine.AttachIndexBuffer | GLVK/VK/GraphicsEngineVK.cpp:257 | mesh i's index buffer is the new upload's target |
| GraphicsEngineVK.GraphicsEngine.AttachBuffers | GLVK/VK/GraphicsEngineVK.cpp:254-258 | every mesh gets a vertex and an index buffer of its own, in mesh order; nothing else about the meshes changes |
| GraphicsEngineVK.GraphicsEngine.CachedModel | GLVK/VK/GraphicsEngineVK.cpp:235-237 | a model exactly when the first registry entry with the name is a model |
| GraphicsEngineVK.GraphicsEngine.LoadModel | GLVK/VK/GraphicsEngineVK.cpp:233-262 | the import error is the outcome exactly when no model is cached and the import fails, and then nothing is registered; otherwise the model is registered under its name with its placement and takes the next slot; its meshes are the cached geometry or the file's meshes in pre-order, the last imported one with the model's placement; every mesh has fresh buffers |
| GraphicsEngineVK.GraphicsEngine.ImportMeshes | GLVK/VK/GraphicsEngineVK.cpp:235-252 | a cached model's meshes are copied without buffers and with zero placement; otherwise the file is loaded, its failure is the outcome, and the last imported mesh has the model's placement |
| GraphicsEngineVK.GraphicsEngine.RegisterModel | GLVK/VK/GraphicsEngineVK.cpp:253-261 | the model is registered under its name, every mesh gets buffers, and the model takes the slot numbered by the models loaded before, with its world matrix |
| GraphicsEngineVK.GraphicsEngine.CreateUniformBuffers | GLVK/VK/GraphicsEngineVK.cpp:840-858 | the stride from the alignment, a host buffer of one stride per model, and every model's world matrix in its slot |
| GraphicsEngineVK.GraphicsEngine.Update | GLVK/VK/GraphicsEngineVK.cpp:84-96 | every slot holds its model's new world matrix, and the padding between slots is unchanged |
| GraphicsEngineVK.GraphicsEngine.BeginDraw | GLVK/VK/GraphicsEngineVK.cpp:152-162 | command buffer i is recorded against framebuffer i, for every i |
| GraphicsEngineVK.GraphicsEngine.Render | GLVK/VK/GraphicsEngineVK.cpp:102-133 | the frame slot's calls are appended to the frame log, which keeps its fence discipline, and the slot advances round-robin over the swapchain images |
| Vulkan.ToUint32 | Structures/Model.h:306 | the uint32_t value of an integer: below 2^32, and unchanged when already in range |

## Left out

- Driver behaviour is not modelled. The `Device` returns fresh handles and logs calls. The real effects of instance, surface, logical device and swapchain creation are not modelled. Nor are the debug messenger and its callback, descriptor set layouts, pools and sets, shader modules, framebuffers, the command pool and command buffer allocation, `CreateSynchronizationObjects`, or the colour and depth attachment images. These calls only create handles; the properties of interest lie in the selection logic around them, which is modelled.
- Texture image creation inside `LoadTexture` is not modelled: the `Image` constructor for a new image, `Image::AllocateMemory`, `TransitionLayout`, `Buffer::CopyBufferToImage`, `GenerateMipmaps`, `CreateSampler`, `Image::Dispose`, and the mip count computed with floating-point `log2`. Only the staging upload and the registration of the texture are modelled. `ImageVK.Image` models the constructor that adopts an existing image, `CreateImageView` and the destructor.
- The MVP and light uniform buffers are not modelled. The device-side dynamic uniform buffer is not modelled either: its creation, `Map` and the `memcpy` of the host copy. The host copy from `AllocateAlignedMemory` is a fresh byte array.
- `GetWorldMatrix` and the floating-point rotation in `Update` are left out. The new world matrices are a parameter (`worlds`), as bytes.
- The `uint64_t` product in the dynamic buffer size is not modelled as wrapping. It is far below 2^64 for any realistic number of models.
- GraphicsEngineVK.GraphicsEngine.CreateUniformBuffers: requires the minimum offset alignment to be at most 256. This is the limit Vulkan places on every device; the code itself assumes no bound.
- GraphicsEngineVK.GraphicsEngine.Update: requires that every model already has its slot in the host buffer. In the engine this holds because `CreateUniformBuffers` runs after all models are loaded.
- GraphicsEngineVK.GraphicsEngine.StagingTeardown: its contract states only that no staging buffer means no calls. The calls for an existing buffer are those of `Buffer.TeardownCalls`, by definition.
- GraphicsEngineVK.GraphicsEngine.Render: the semaphore wait stages of the submit info are not modelled. The acquire result is not checked by the code, so the acquired image index is a parameter.
- GraphicsEngineVK.GraphicsEngine.BeginDraw: only the pairing of each command buffer with its framebuffer is modelled, not the commands it records. `EndDraw` is not modelled.
- SwapchainPolicy.GetSurfaceFormat: requires a non-empty format list. The code reads `formats[0]` unguarded, and a device is selected only when its surface reports a format.
- BufferVK.Buffer.Dispose: requires that the buffer has not been disposed. It has two callers. `~Buffer` checks that flag first. `Mesh::Dispose` (Structures/Model.h:78-85) calls it unchecked for both buffers. It is reached only through `Model::Dispose`, which `ResourceManager::RemoveResource` and `Destroy` call once per registered model. Every mesh holds its own two buffers (`BuffersFreshAndDistinct`), so each buffer is disposed at most once before its destructor runs.
- ResourceRegistry.ResourceManager.RemoveResource: requires that the name is registered. For an absent name the code dereferences `find_if`'s `end()` (Interfaces/IResourceManager.h:23-31), which is undefined behaviour, so the model promises nothing for it.
- SceneManagement.SceneManager.SetCurrentScene: requires that a scene with the name is registered. For an absent name the code dereferences `find_if`'s `end()` (Interfaces/ISceneManager.h:48-54), which is undefined behaviour, so the model promises nothing for it.
- The random engine is a nondeterministic choice. `GetRandomNumber` may return any value in its range. `GetRandomString` may return any selection sample of the alphabet, and `AddUnnamedResource` may therefore choose any such name. The floating-point overload of `GetRandomNumber` is not modelled.
- The iteration order of the `std::unordered_set` of unique queue families is not fixed by C++. The model takes the families out of a set in an arbitrary order, and its contracts hold for every order.
- The memory-type test `memoryType & (1 << i)` shifts a signed `int`. It is read as a test of bit i, which it is for the at most 32 memory types Vulkan reports.
- Concurrency is left out: the asynchronous `GeneratePrimitiveData` and the mutexes. `ShapeTable.GeneratePrimitiveData` is modelled as running to completion.
- `CreateGraphicPipeline` has an empty body and `CreateGraphicPipelines` has none in the code, so pipeline construction is not part of this model.
- These are not modelled: `Mesh::Render` (`BasicShaderForMesh`, which has no Vulkan body), `Mesh::Dispose`, `Model::Dispose`, the `Model(std::vector<Mesh>&)` constructor, the engine destructor, and the `ISceneManager` destructor.
- Assimp's importer is not modelled. The imported scene is a parameter: an `AiScene` tree of nodes, meshes and materials.
- `stbi_load` is not modelled. The byte size of each decoded image is given by the engine's `imageBytes` parameter, and the pixels themselves are not modelled.
- GraphicsEngineVK.GraphicsEngine.CachedModel: looks the name up with the corrected `ResourceManager.GetResource`, and `LoadModel` relies on it. As written, the code reads past the end of a non-empty registry that lacks the name (see Findings). That is undefined behaviour, so the model does not follow the code there and promises nothing about what that read would return.
- The `float` fields (the position, scale, rotation and colour of meshes and models, and the degree-to-radian factor of `glm::radians`) are modelled as `real`. Floating-point rounding is not captured: `Radians` multiplies exactly.
- How much `std::vector` grows when it is full is the standard library's choice. `Model.EmplaceMesh`, `Model.Copy` and `Model.AssignMeshVector` pick any capacity large enough. The contracts hold for every choice, and the model does not say which meshes a given library relocates.
- GraphicsEngineVK.GraphicsEngine.AppendMeshes: states for each imported mesh only that it has the model's placement or the default one, and that the last appended mesh has the model's. Which earlier meshes were relocated depends on the library's growth choices, so the model does not say which. `AppendMesh` and `Model.EmplaceMesh` state the exact effect of one emplace.
- GraphicsEngineVK.GraphicsEngine.ProcessNode: states for each imported mesh only that it has the model's placement or the default one, and that the last appended mesh has the model's. Which earlier meshes were relocated depends on the library's growth choices, so the model does not say which. `AppendMesh` and `Model.EmplaceMesh` state the exact effect of one emplace.
- GraphicsEngineVK.GraphicsEngine.LoadInto: states for each imported mesh only that it has the model's placement or the default one, and that the last appended mesh has the model's. Which earlier meshes were relocated depends on the library's growth choices, so the model does not say which. `AppendMesh` and `Model.EmplaceMesh` state the exact effect of one emplace.
- GraphicsEngineVK.GraphicsEngine.ImportMeshes: states for each imported mesh only that it has the model's placement or the default one, and that the last appended mesh has the model's. Which earlier meshes were relocated depends on the library's growth choices, so the model does not say which. `AppendMesh` and `Model.EmplaceMesh` state the exact effect of one emplace.
- GraphicsEngineVK.GraphicsEngine.LoadModel: states for each imported mesh only that it has the model's placement or the default one, and that the last appended mesh has the model's. Which earlier meshes were relocated depends on the library's growth choices, so the model does not say which. `AppendMesh` and `Model.EmplaceMesh` state the exact effect of one emplace.
- The placement that relocated meshes lose is kept in the model as the code leaves it. It changes no draw command of `Model.Render`: `Model::Render` pushes the model's colour for every mesh (Structures/Model.h:314) and reads no mesh position, scale or rotation.
- The DirectX 11 backend, windowing (GLFW), input, the camera and the game layer are outside the Vulkan core and are not part of this model.

## Findings

| source | as written | input that shows it | evidently intended | confidence | as-written member | corrected member |
|---|---|---|---|---|---|---|
| GLVK/VK/GraphicsEngineVK.cpp:872-890 | the extent test looks for `UINT32_MAX` in `minImageExtent.width` and otherwise returns `currentExtent` | a surface whose current extent is `0xFFFFFFFF x 0xFFFFFFFF` (it follows the swapchain) and whose minimum is 1 x 1: the swapchain extent becomes `0xFFFFFFFF x 0xFFFFFFFF`, outside the surface's bounds | test `currentExtent.width`, and clamp the framebuffer size when it is the special value | not executed | SwapchainPolicy.GetExtentAsWritten, SwapchainPolicy.GetExtentAsWrittenReturnsSpecialValue | SwapchainPolicy.GetExtent, SwapchainPolicy.GetExtentWithinBounds |
| GLVK/VK/GraphicsEngineVK.cpp:938-950 | the highest count in `std::min(colorCounts, depthCounts)`, the numerically smaller mask | colour mask 5 (1 and 4 samples), depth mask 3 (1 and 2 samples): picks 2, which colour images do not support | the highest count in `colorCounts & depthCounts` | not executed | SwapchainPolicy.GetMsaaSampleCountsAsWritten, SwapchainPolicy.GetMsaaSampleCountsAsWrittenUnsupported | SwapchainPolicy.GetMsaaSampleCounts, SwapchainPolicy.HighestCommonSampleCount |
| Interfaces/IResourceManager.h:64-73 | a non-empty registry dereferences the result of `find_if` even when it is `end()` | a registry holding one texture named "aBcDeFg", asked for "Models/Tank/tank.fbx" (the first `LoadModel` after a `LoadTexture`) | return an empty result when no entry has the name | not executed | ResourceRegistry.GetResourceAsWritten, ResourceRegistry.GetResourceAsWrittenReadsPastTheEnd | ResourceRegistry.ResourceManager.GetResource |
| Structures/Matrix.h:86-106 | the conversion to `glm::mat3` assigns all sixteen elements, including `matrix[0][3]` | any matrix: the fourth assignment, `matrix[0][3] = _03`, is outside a 3x3 matrix | the upper-left 3x3 block | not executed | Matrix.Matrix4x4ToGlmMat3AsWritten, Matrix.Matrix4x4ToGlmMat3AsWrittenFails | Matrix.Matrix4x4ToGlmMat3, Matrix.InRangeWritesGiveUpperLeftBlock |
| GLVK/VK/GraphicsEngineVK.cpp:532-533 | `getQueue(0, familyIndex)` passes 0 as the family and the family index as the queue index | graphics on family 0, presentation on family 1, one queue created per family: the present lookup asks for queue 1 of family 0, which does not exist | `getQueue(familyIndex, 0)` | not executed | DeviceSelection.DeviceQueueLookupsAsWritten, DeviceSelection.DeviceQueueLookupsAsWrittenInvalid | DeviceSelection.DeviceQueueLookups, DeviceSelection.DeviceQueueLookupsValid |
| Structures/Model.h:420-432 | `ProcessNode` emplaces each mesh with `Meshes.emplace_back` and no `reserve`; when the vector is full it relocates the meshes already there through `Mesh(Mesh&&)` (lines 47-50), which moves the vectors and buffers but not the colour, position, scale or rotation, so they fall back to the defaults | a root node with two meshes, loaded into a new model placed away from the origin: the first emplace leaves capacity 1, and the second relocates mesh 0, whose placement becomes the default | every imported mesh carries the model's placement: a move constructor that moves every member, or a `reserve` before the loop | not executed | ModelImport.EmplaceBack, ModelImport.EmplaceBackDropsPlacement | ModelImport.EmplaceBackIntended, ModelImport.EmplaceBackIntendedKeepsPlacements |
