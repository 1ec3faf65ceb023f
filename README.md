# Vulkan 3D model viewer: a Dafny model of its sequential core

The viewer loads a Wavefront/Assimp model, uploads its meshes, materials and
textures to the GPU, and lets the user orbit and zoom the camera. Most of its
code calls into Vulkan, GLFW and Assimp. This project models the logic that
sits between those calls, and proves what that logic promises:

- **`Debug` (debug.dfy)**: `vulkanCheck`. It passes on `VK_SUCCESS` and
  raises `` `function`: message`` followed by a newline on any other result.
  A raised error is the `Fail` outcome of a function.
- **`VulkanFunctions` (vulkan_functions.dfy)**:
  - physical-device selection: the first discrete GPU, else the first
    integrated GPU, else a fatal `VK_INCOMPLETE`;
  - queue-family selection: the first family whose flags share a bit with
    the requested mask;
  - the failure of `createDevice` when no family supports graphics;
  - the fixed instance and device extension lists.
- **`ModelLoading` (model.dfy)**: model assembly.
  - The directory prefix of the file name.
  - The path-keyed texture cache. The texture list and the cache stay
    consistent, so every path is loaded at most once.
  - Material construction from three optional texture slots.
  - Flattening triangles into an index list.
  - The pre-order walk of the scene graph that appends one mesh per mesh
    reference.
- **`App` (application.dfy)**:
  - the orbit/zoom input state of `Application` and its four GLFW
    callbacks;
  - the control flow of `renderFrame` and `resize`, with every Vulkan and
    GLFW call recorded in an event log;
  - the framebuffers, one per swapchain image at the swapchain extent.

`Wrappers` (wrappers.dfy) holds `Option`, `Outcome` and three small
facts about sequence concatenation and prefixes.

Foreign inputs are parameters:
- the device types and queue-family flags the driver enumerates;
- the imported scene, which is `None` when the import fails;
- the results of `vkCreateDevice`, `vkAcquireNextImageKHR` and
  `vkQueuePresentKHR`;
- the framebuffer sizes GLFW reports;
- the swapchain the application starts with, and the one `createSwapchain`
  creates during `resize`; neither creation is part of this model.

GPU objects are represented by the data they are built from:
- a texture by its path;
- a mesh by its vertex count, index list and material index;
- the material buffer by the materials copied into it.

`float` and `double` values are reals.

## Model

| member | source | states |
|---|---|---|
| Debug.ErrorMessage | src/vk/debug.cpp:13-14 | the raised text is one back quote, the function name, a back quote, a colon and a space, the message and a newline, so its length is the two input lengths plus 5 |
| Debug.VulkanCheck | src/vk/debug.cpp:8-17 | it passes exactly when the result is `VK_SUCCESS`; otherwise it raises a runtime error carrying the formatted message |
| Debug.ErrorMessageShape | src/vk/debug.cpp:14 | the raised text starts with the back-quoted function name and ends with the caller's message and a newline |
| Debug.CallerMessageRoundTrip | src/vk/debug.cpp:14 | the caller's message can be read back from the raised text, so different messages give different errors |
| Debug.AsSigned32 | src/model/model.cpp:46 | `static_cast<VkResult>` of a 32-bit word: negative iff the top bit is set; a word below 2^31 keeps its value, and a larger one loses 2^32 |
| Debug.SyntheticCodesRaise | src/vk/debug.cpp:10-16 | `~VK_SUCCESS` read as a `VkResult` is -1; both it and `VK_INCOMPLETE` always raise |
| VulkanFunctions.SearchPhysicalDeviceType | src/vk/vulkan_functions.cpp:132-146 | found iff some device has the wanted type, and then the index is the first such device in enumeration order |
| VulkanFunctions.RenderDevice.PickPhysicalDevice | src/vk/vulkan_functions.cpp:124-159 | if some device is discrete, the first discrete device is chosen; with no discrete device, the first integrated one is chosen; with neither, the outcome is `vulkanCheck(VK_INCOMPLETE, …)` and the choice is unchanged |
| VulkanFunctions.FindQueueFamilyIndex | src/vk/vulkan_functions.cpp:161-176 | none iff no family's flags share a bit with the mask; otherwise the smallest index whose flags do |
| VulkanFunctions.RenderDevice.CreateDevice | src/vk/vulkan_functions.cpp:91-122 | with no graphics family, `.value()` raises before anything is created; otherwise the outcome is `vulkanCheck` of the creation result, and on success the queue family is the first graphics-capable one |
| VulkanFunctions.InstanceExtensions | src/vk/vulkan_functions.cpp:178-190 | the surface and Win32-surface extensions first; the debug-utils extension is present iff the build is a debug build |
| VulkanFunctions.DeviceExtensions | src/vk/vulkan_functions.cpp:192-199 | exactly one extension, the swapchain extension |
| VulkanFunctions.DebugExtensionsExtendRelease | src/vk/vulkan_functions.cpp:185-187 | a debug build enables the release list followed by debug utils |
| ModelLoading.ToUint32 | src/model/model.cpp:90 | the `size_t` to `uint32_t` conversion keeps every value below 2^32 unchanged |
| ModelLoading.FindLastOf | src/model/model.cpp:36 | npos iff the character does not occur; otherwise the position of its last occurrence |
| ModelLoading.Substr | src/model/model.cpp:36 | `substr(pos, count)` has `count` characters, or the rest of the string when fewer remain, and they are the characters from `pos` on |
| ModelLoading.Directory | src/model/model.cpp:36 | the directory is a prefix of the file name, is empty or ends in '/', and no '/' follows it |
| ModelLoading.DirectoryEmptyIffNoSlash | src/model/model.cpp:36 | the directory is empty exactly when the file name has no '/' (npos + 1 wraps to 0) |
| ModelLoading.DirectoryUnique | src/model/model.cpp:36 | any prefix that is empty or ends in '/', with no '/' after it, is the directory: the rule takes everything up to and including the last '/' |
| ModelLoading.ChildStep | src/model/model.cpp:159-160 | walking one more child appends that child's pre-order meshes after those already built |
| ModelLoading.ChildrenRefsBelow | src/model/model.cpp:159-160 | valid mesh references for a run of children give valid references for each child and for every shorter run |
| ModelLoading.NodeRefsBelow | src/model/model.cpp:151-160 | valid mesh references for a subtree give valid references for the node's own meshes and for its children |
| ModelLoading.TriangleIndicesAt | src/model/model.cpp:202-219 | the index list of n faces has 3n entries, and entry 3i+k is corner k of face i |
| ModelLoading.BuiltMeshesAppend | src/model/model.cpp:151-160 | building meshes for two reference lists in turn is the same as building them for the joined list |
| ModelLoading.BuiltMeshesAt | src/model/model.cpp:163-173 | one mesh per reference; mesh j carries the material index and the index list of the scene mesh that reference j names |
| ModelLoading.CacheSize | src/model/model.cpp:119-130 | a consistent texture cache has exactly as many entries as there are textures |
| ModelLoading.CacheInjective | src/model/model.cpp:119-130 | under a consistent cache, no two textures share a path and no two paths share an index |
| ModelLoading.SlotPath | src/model/model.cpp:112-119 | a channel contributes no path when it has no texture, and otherwise exactly `directory` + its first file name |
| ModelLoading.StoreTextureConsistent | src/model/model.cpp:110-131 | resolving one channel keeps the texture list and the cache consistent and never removes or reorders a texture |
| ModelLoading.StoreTextureExtends | src/model/model.cpp:121-128 | resolving one channel keeps every cached path at its index |
| ModelLoading.StoreTextureKeys | src/model/model.cpp:112-128 | resolving one channel adds exactly the channel's path to the cache keys, or nothing when it has no texture |
| ModelLoading.MaterialStoreConsistent | src/model/model.cpp:84-86 | resolving the three channels of a material keeps the store consistent and keeps every texture |
| ModelLoading.MaterialStoreExtends | src/model/model.cpp:84-86 | resolving a material keeps every cached path at its index |
| ModelLoading.MaterialStoreKeys | src/model/model.cpp:84-86 | resolving a material adds exactly the paths of its diffuse, specular and height channels to the cache keys |
| ModelLoading.SceneStoreStep | src/model/model.cpp:79-86 | one more loop iteration resolves one more material on top of the store built so far |
| ModelLoading.SceneStoreConsistent | src/model/model.cpp:79-107 | resolving every material of the scene keeps the store consistent and keeps every texture |
| ModelLoading.SceneStoreExtends | src/model/model.cpp:79-107 | resolving every material keeps every cached path at its index |
| ModelLoading.SceneStoreKeys | src/model/model.cpp:79-107 | the cache keys grow by exactly the paths of all the scene's materials |
| ModelLoading.SlotFromTexture | src/model/model.cpp:88-104 | a material slot filled from `loadTexture`'s result has flag 1 and the cached index when the channel has a texture, and 0 and 0 otherwise; this stays true as the cache grows |
| ModelLoading.MaterialLoadedExtends | src/model/model.cpp:84-86 | a correctly filled material stays correct when later texture loads only add cache entries |
| ModelLoading.MaterialsLoadedExtend | src/model/model.cpp:79-107 | every material built so far stays correct when the cache only grows |
| ModelLoading.MaterialsLoadedAppend | src/model/model.cpp:106 | pushing a correctly filled material keeps the material list matched to the scene materials position by position |
| ModelLoading.ExtendsTransitive | src/model/model.cpp:84-86 | cache growth composes: three successive texture loads keep every earlier entry |
| ModelLoading.Model.constructor | src/model/model.hpp:18-23 | a fresh model has no textures, cache entries, materials or meshes, and its cache is consistent |
| ModelLoading.Model.LoadTexture | src/model/model.cpp:110-131 | the new texture list and cache are `StoreTexture` of the old ones: an empty channel or a cache hit changes nothing, and a miss appends one texture for `directory + filename` and caches it at the old texture count; the result is none for an empty channel and otherwise the cached index of the path; the cache stays consistent |
| ModelLoading.Model.FillSlots | src/model/model.cpp:82-104 | a slot gets flag 1 and the found index when a texture was found, and stays 0 and 0 otherwise |
| ModelLoading.Model.LoadMaterial | src/model/model.cpp:81-104 | the texture list and cache are `MaterialStore` of the old ones, which adds exactly the material's paths as keys and keeps every texture; each of the diffuse, specular and height slots has flag 1 and the index of its texture's path when the scene material has such a texture, and stays 0 and 0 otherwise |
| ModelLoading.Model.LoadMaterials | src/model/model.cpp:75-108 | appends exactly one material per scene material, in scene order, keeping the earlier materials; each is filled from its scene material; the cache keeps every entry and gains exactly the paths of the scene's materials, the old textures stay in front, and the cache stays consistent |
| ModelLoading.Model.CreateMaterialBuffer | src/model/model.cpp:133-147 | the material buffer holds exactly the model's materials |
| ModelLoading.Model.GetIndices | src/model/model.cpp:202-220 | returns 3·faces indices, entry 3i+k being corner k of face i |
| ModelLoading.Model.ProcessMesh | src/model/model.cpp:163-173 | appends exactly one mesh, built from the scene mesh's vertex count, triangle indices and material index |
| ModelLoading.Model.ProcessMeshes | src/model/model.cpp:151-157 | appends one mesh per reference of the node, in order |
| ModelLoading.Model.ProcessNode | src/model/model.cpp:149-161 | appends the meshes of the whole subtree in pre-order: the node's own meshes in order, then each child's subtree from left to right |
| ModelLoading.Model.CreateModel | src/model/model.cpp:34-51 | the directory is set first in every case; it raises `vulkanCheck(~VK_SUCCESS, "Failed to load model.")` exactly when there is no scene, the scene is incomplete or there is no root, and then nothing else changes; otherwise it loads the materials, fills the material buffer with them and appends the root's pre-order meshes; the cache keeps every entry and gains exactly the paths of the scene's materials, the old textures stay in front, and the cache stays consistent |
| App.Clamp | src/application.cpp:715 | `glm::clamp` gives a value within the bounds: the input when it is in range, else the bound it crosses |
| App.ClampPitch | src/application.cpp:713-716 | after the pitch correction the pitch is within [-90, 90], and an in-range pitch is unchanged |
| App.ClampPitchIsClamp | src/application.cpp:713-716 | the magnitude guard is redundant: the correction equals a plain clamp to [-90, 90] |
| App.Zoom | src/application.cpp:732-733 | the new scale lies in [0.1, 10], and equals `scale + yOffset*scale/10` whenever that is in range |
| App.ZoomDirection | src/application.cpp:732-733 | from a scale within bounds, scrolling up never zooms out and scrolling down never zooms in |
| App.FirstNonZero | src/application.cpp:643-647 | the number of waits is the position of the first size with no zero dimension; every earlier size has a zero dimension |
| App.Waits | src/application.cpp:645 | n waits are n `glfwWaitEvents` calls |
| App.ImageTeardown | src/application.cpp:652-656 | the destroy loop over n images makes 2n calls |
| App.FramebufferCreation | src/application.cpp:149-165 | the creation loop over n images makes n calls |
| App.ResizeEvents | src/application.cpp:641-669 | after w waits, a resize from n old to m new images makes w + 2n + m + 8 calls, and its last call is the view-projection upload |
| App.FrameEvents | src/application.cpp:590-636 | an out-of-date acquire makes exactly the calls of one resize, ending with the upload; otherwise a frame makes 4 calls without a resize and the resize's calls plus 4 with one, and its last call is the idle wait |
| App.ImageTeardownAt | src/application.cpp:652-656 | the destroy loop over n images has 2n calls: framebuffer i at position 2i, and its image view i right after |
| App.ImageTeardownDestroys | src/application.cpp:652-656 | every call of the destroy loop destroys something |
| App.FramebufferCreationAt | src/application.cpp:149-165 | creating n framebuffers makes n calls, the i-th creating framebuffer i at the extent |
| App.FramebufferCreationBuilds | src/application.cpp:149-165 | `createFramebuffers` only creates framebuffers |
| App.ResizeWaitsBeforeDestroying | src/application.cpp:643-665 | the first `waits` calls are event waits and the next is the idle wait; a call destroys something iff it is one of the 2·(old image count)+2 calls right after the idle wait, so nothing is destroyed while waiting |
| App.NeverRendersWhileResizing | src/application.cpp:638-674 | `resize` records, submits and presents nothing |
| App.FrameEventsOrder | src/application.cpp:590-636 | an out-of-date acquire does exactly a resize and no record, submit or present; otherwise record, submit and present come first and the idle wait last, and there are calls between them (the resize) iff the present was out of date or suboptimal |
| App.Resized | src/application.cpp:147 | `vector::resize` keeps the first n framebuffers and fills any new slots with null handles |
| App.Application.constructor | src/application.cpp:12-36 | the button is not pressed, the cursor is at (0, 0), both rotations are 0, the scale is 1 and the sensitivity 0.15; the depth buffer, the first view-projection upload and one framebuffer per image follow, in that order |
| App.Application.KeyCallback | src/application.cpp:676-682 | Escape requests the window to close, whatever the action; any other key changes nothing |
| App.Application.MouseButtonCallback | src/application.cpp:684-699 | a left press sets the orbit flag and a left release clears it; any other button or action leaves it unchanged |
| App.Application.CursorPositionCallback | src/application.cpp:701-723 | the cursor is always recorded; only while the button is held do the rotations change, by the sensitivity times the cursor movement, with the pitch clamped to [-90, 90], and only then is the view-projection uploaded; pitch and scale bounds are kept |
| App.Application.ScrollCallback | src/application.cpp:725-736 | a zero vertical offset changes nothing and uploads nothing; otherwise the scale becomes `Zoom(scale, yOffset)` within [0.1, 10], followed by one upload |
| App.Application.CreateFramebuffers | src/application.cpp:144-166 | afterwards there is exactly one framebuffer per swapchain image, framebuffer i over image view i at the swapchain extent, created in index order |
| App.Application.WaitForSize | src/application.cpp:641-647 | the number of `glfwWaitEvents` calls is the position of the first reported size with no zero dimension |
| App.Application.DestroyImages | src/application.cpp:652-656 | for each current image in index order, framebuffer i and then image view i are destroyed |
| App.Application.Resize | src/application.cpp:638-674 | waits until a size with no zero dimension arrives; the call sequence is then fixed: idle wait, the destroy loop over the old images, the depth image, the swapchain, recreation, one framebuffer per new image at the new extent, camera resize, upload; all invariants hold at the new extent |
| App.Application.RenderFrame | src/application.cpp:532-636 | it raises `std::out_of_range` exactly when the acquire was not out of date and the acquired index has no framebuffer, and then nothing changes; otherwise the calls are those `FrameEventsOrder` describes, the swapchain changes iff a resize happened, and on a frame without a resize the framebuffers are untouched |

## Left out

- Vulkan object creation, binding and destruction (instance, surface, render pass, pipeline, descriptors, buffers, images, command recording, submission, presentation) are recorded as events or replaced by the data they would hold. Their effects on the GPU are not modelled.
- `src/camera/camera.cpp` and the matrix work of `updateViewProjUBO` (glm perspective, rotation, inverse) are not part of this model; an upload is one `UpdateViewProjUbo` event.
- Float rounding: `mScale`, `mRotationX/Y` and the sensitivity are `float` in the source and the cursor is `double`; the model uses exact reals, so 0.1f, 0.15f and the products are not rounded.
- Assimp import (`ReadFile`, import flags, post-processing) is an input `Option<Scene>`. The scene is taken to be triangulated with mesh references in range, which the import flags arrange; `SceneWellFormed` states this.
- `getVertices` copies raw vertex attributes with `reinterpret_cast`; a built mesh records only the vertex count.
- `createTextureWithMips` (image decoding and upload) is the token `Texture(path)`; its own failures are not modelled.
- App.Application.CreateFramebuffers: does not model a failing `vkCreateFramebuffer` result, because the driver call is outside the model.
- The name `std::source_location::function_name()` supplies is a parameter of `VulkanCheck`; the compiler's exact spelling (return type, parameters) is not modelled.
- App.Application.Resize: requires that some reported size has no zero dimension. Without one, the source waits forever, and a terminating model cannot express that.
- App.Application.RenderFrame: requires a usable size only on the paths that resize, for the same reason.
- App.Application.RenderFrame: on the `std::out_of_range` path the log has no entry for the `vkBeginCommandBuffer` call that precedes the throw, since the command buffer is not modelled. Acquisition failures other than `VK_ERROR_OUT_OF_DATE_KHR` are not told apart: like the source, the model goes on to record the frame.
- App.Application.Resize: the callbacks that `glfwWaitEvents` dispatches (src/application.cpp:645) are not modelled. The key, cursor and scroll callbacks can change the rotation, the scale and the button flag, and can upload the view-projection between two waits. The model keeps them unchanged and logs only the waits.
- The `DEBUG_MODE` print of the new extent at the end of `resize` (src/application.cpp:671-673) is console output and is not modelled.
- `createSwapchain` and `createSwapchainImages` are not part of this model; the new swapchain's extent and image count are the input `next`.
- The `static` lambda in `pickPhysicalDevice` captures the device list by reference on the first call; a second call would read a dangling reference. Only a single call is modelled.
- `src/window.cpp` (an older duplicate of the application setup), `debugCallback`, the main run loop, `glfwPollEvents` and the recovery of the application through the window user pointer are not part of this model.
- The `Application` constructor's other setup calls (GLFW initialisation, instance, surface, device, descriptors, render pass, pipeline) and its `createModel` call are not in its event log; model loading is modelled separately by `ModelLoading.Model.CreateModel`.
- `uint32_t` loop counters and queue-family indices are unbounded naturals; more than 2^32 families, faces, materials or children cannot occur in practice.
- The stale struct shapes of src/model/model.hpp, src/model/mesh.hpp and src/vk/vulkan_types.hpp are not followed; the fields model.cpp uses are.
