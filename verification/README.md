# wlroots Vulkan renderer and EGL set-up, modelled in Dafny

This project models the decision logic and the integer arithmetic of an early
Vulkan renderer for wlroots. It also models the EGL initialisation used by the
backends. Every call into Vulkan, EGL, the kernel or libc is replaced by an
answer the caller supplies: a success flag, a returned value or a record of the
device's reports. The model then states and proves what the surrounding code
does with those answers.

The modules follow the source files.

- `Common` (common.dfy) holds fixed-width integer types, `Option`, bit-flag words and an order-preserving `Filter`.
- `Arith` (arith.dfy) holds multiplication and division by recursion, so the proofs avoid nonlinear arithmetic.
- `Vk` (vk.dfy) holds the Vulkan, DRM and wlroots constants the code uses. Their values come from the public Vulkan, `drm_fourcc.h` and wlroots headers.
- `PixelFormat` (pixel_format.dfy) is the static DRM-to-Vulkan format table, its list and its lookup.
- `FormatProps` (format_props.dfy) is the per-device format query. It sorts tiling modifiers into render and texture lists, handles the shm fallback, and provides lookup by format and by modifier.
- `Memory` (memory.dfy) is the memory-type search declared in the header, and the memory index `vulkan_texture_from_pixels` computes.
- `TextureState` (texture_state.dfy) covers the texture record, the frame counter, the deferred-destroy list, `vulkan_texture_destroy` and the end of a frame.
- `TextureUpload` (texture_upload.dfy) is `vulkan_texture_write_pixels`. It covers the alignment checks, the staging size `bsize`, the packed staging contents byte by byte, and the per-plane copy regions and aspects.
- `TextureCreate` (texture_create.dfy) covers `vulkan_import_dmabuf`, `vulkan_texture_from_dmabuf` and `vulkan_texture_from_pixels`:
  - the ordered validation of an import;
  - the memory loop and how many memories it leaves allocated;
  - binding;
  - the flag handling;
  - the clean-up paths.
- `Bootstrap` (bootstrap.dfy) covers `find_extensions`, `debug_callback`, `wlr_vk_instance_create` and `wlr_vk_device_create`:
  - extension filtering and capacity bounds;
  - the required dmabuf extension trio;
  - the queue-family search;
  - the loop that queries every format.
- `LegacyRenderer` (legacy_renderer.dfy) is the earlier draft renderer. It covers the `init_instance` extension check, the queue set-up of `init_device` and the parameter choice of `init_swapchain`.
- `Egl` (egl.dfy) covers:
  - `egl_error`, `egl_exts` and `egl_get_config`;
  - the initialisation chain and its extension-string check;
  - the guarded `wlr_egl_bind_display` and `wlr_egl_query_buffer`.

Where the code and the header comments disagree, the model follows the code.
The header comment on `wlr_vk_device_create` (include/render/vulkan.h:79-83) says device creation does not fail when extensions are unavailable. The code fails without the dmabuf trio (render/vulkan/vulkan.c:326-349), and `Bootstrap.DeviceCreate` states the code's behaviour.

The table below uses two source names interchangeably:

- `vulkan_format_props_from_drm` and `wlr_vk_format_from_drm` are the same lookup, `FormatProps.FormatPropsFromDrm`.
- `vulkan_format_props_find_modifier` and `wlr_vk_format_props_find_modifier` are the same search, `FormatProps.FindModifier`.

## Model

| member | source | states |
|---|---|---|
| PixelFormat.FormatTableShape | render/vulkan/pixel_format.c:8-177 | The table has 11 entries with pairwise distinct DRM codes. Every entry has 1 to 3 planes with subsampling in {1,2} and bits per block a multiple of 8. Alpha is set exactly for the ARGB/ABGR codes, and Y'CbCr exactly for the YUYV/UYVY/NV/YUV codes. |
| PixelFormat.TableVsubDividesHsub | render/vulkan/pixel_format.c:8-177 | In every table plane the vertical subsampling divides the horizontal one. |
| PixelFormat.GetFormatList | render/vulkan/pixel_format.c:179-182 | The list is the table and the reported length is its 11 entries, all well formed. |
| PixelFormat.GetFormatFromDrm | render/vulkan/pixel_format.c:184-191 | It returns the table entry with the requested DRM code, or nothing exactly when no entry has it. |
| FormatProps.AcceptedModifiers | render/vulkan/pixel_format.c:293-381 | A usage's modifier list is never longer than the device's modifier list. |
| FormatProps.AcceptedSound | render/vulkan/pixel_format.c:300-334 | Every list entry comes from a device modifier meeting all three conditions: features intersect, query succeeds, IMPORTABLE. Its extent and flags come from that query. |
| FormatProps.AcceptedComplete | render/vulkan/pixel_format.c:300-334 | Every device modifier meeting all three conditions gets its entry in the list. |
| FormatProps.AcceptedOnlyIfAllThree | render/vulkan/pixel_format.c:300-374 | An entry is present only if its modifier's tiling features intersect the usage's features, the image query succeeded and the external features include IMPORTABLE. |
| FormatProps.AcceptedPrefix | render/vulkan/pixel_format.c:293-381 | The entries from a prefix of the device list are a prefix of the entries from the whole list. |
| FormatProps.AcceptedPosition | render/vulkan/pixel_format.c:315-325 | An accepted modifier's entry is placed right after the entries of the modifiers before it. |
| FormatProps.AcceptedKeepsOrder | render/vulkan/pixel_format.c:293-381 | Both lists keep the device's modifier order. |
| FormatProps.ModifierPairsAppend | render/vulkan/pixel_format.c:328-329 | Appending an entry adds exactly its (format, modifier) pair to the dmabuf format set. |
| FormatProps.ClassifyModifiers | render/vulkan/pixel_format.c:293-381 | The loop builds exactly the render and texture lists, and adds exactly their (format, modifier) pairs to the two dmabuf format sets. |
| FormatProps.QueryFormat | render/vulkan/pixel_format.c:193-420 | A Y'CbCr format on a device without Y'CbCr, or an early allocation failure, leaves every table unchanged. An shm format is added only if the features intersect and the query succeeds. `format_props` gains exactly one entry iff some path succeeded. |
| FormatProps.FirstWithModifier | render/vulkan/pixel_format.c:430-440 | It returns the first index with the requested modifier, or nothing exactly when no entry has it. |
| FormatProps.FindModifier | render/vulkan/pixel_format.c:427-444 | It searches only the render list when `render` is set and only the texture list otherwise. It returns the first entry with the modifier, or nothing iff none has it. |
| FormatProps.FormatPropsFromDrm | include/render/vulkan.h:265-266 | It returns the first recorded entry with the requested DRM code, or nothing iff none has it. |
| Memory.FindMemTypeFrom | include/render/vulkan.h:86-91 | It returns the first suitable type at or after the start, or -1 iff there is none. |
| Memory.FindMemType | include/render/vulkan.h:86-91 | The result is a type index whose bit is set in the requirement word and whose flags include the requested ones. It is the lowest such index, and -1 iff none exists. |
| Memory.AllOnesAllowsEvery | include/render/vulkan.h:89 | The all-ones requirement word allows every type. |
| Memory.FindWithAllTypesAllowed | include/render/vulkan.h:89-91 | With the all-ones word, a type is found iff some type supports the flags. |
| Memory.FindWithoutFlags | include/render/vulkan.h:86-91 | With no flags, a type is found iff the word allows some existing type. |
| Memory.PixelsMemoryIndexAsWritten | render/vulkan/texture.c:238-277 | The index handed to the allocation as written is the found type index, stored in an unsigned word, ANDed with the image's requirement word. So it is a sub-mask of that word, and the whole word when no device-local type exists. |
| Memory.PixelsMemoryIndex | render/vulkan/texture.c:238-277 | The intended index is a device-local type the image allows, or negative iff no such type exists. |
| Memory.PixelsMemoryIndexCounterexample | render/vulkan/texture.c:272 | Take a device with a host-visible type 0 and a device-local type 1, and an image that allows only type 1. The index as written is 0, a type the image does not allow and that is not device-local. The intended index is 1. |
| TextureState.NewTexture | render/vulkan/texture.c:227-235 | A new texture belongs to the renderer and holds no memories, no descriptor and no flags, with `last_used` 0. |
| TextureState.OpaqueIffNoAlphaCode | render/vulkan/texture.c:38-41 | A table-format texture is opaque iff its DRM code is not an alpha code. |
| TextureState.Destroy | render/vulkan/texture.c:165-200 | With no renderer only the record is freed. A texture used this frame is put at the front of the deferred list and nothing is freed. Otherwise all `mem_count` memories and the descriptor are freed. Only a deferral changes the renderer. |
| TextureState.EndFrame | include/render/vulkan.h:200-202 | Ending a frame advances the counter by one, wrapping at 2^32. It releases every deferred texture and empties the list. The release order, list order, is a modelling choice. |
| TextureState.DeferredReleasedAtEndFrame | include/render/vulkan.h:215 | A deferred texture's resources are released when the frame ends. |
| TextureState.DestroyAfterEndFrameIsImmediate | render/vulkan/texture.c:180-199 | After the frame ends, the same texture is released immediately and never deferred again. |
| TextureUpload.HeightCheckCounterexample | render/vulkan/texture.c:56-62 | A 2x1 upload into a YUYV texture is aligned in both directions, yet the height check as written rejects it. |
| TextureUpload.AsWrittenStricterOnTable | render/vulkan/texture.c:56-62 | On every table format, the checks as written imply the intended ones. |
| TextureUpload.GatherRows | render/vulkan/texture.c:120-124 | Copying `rows` rows of `len` bytes yields `rows*len` bytes. |
| TextureUpload.GatherRowsPlacement | render/vulkan/texture.c:119-125 | Row k of the copied bytes is the source row at `start + k*stride`. |
| TextureUpload.ContiguousRows | render/vulkan/texture.c:115-118 | When rows have no padding, the single block copy equals the row-by-row copy. |
| TextureUpload.PlaneBytes | render/vulkan/texture.c:108-125 | A plane's packed bytes are `(height/vsub) * (bpb/8*width/hsub)` long. |
| TextureUpload.StagedLength | render/vulkan/texture.c:68-149 | The bytes written into the mapping total exactly `bsize`. |
| TextureUpload.StagedRowPlacement | render/vulkan/texture.c:104-146 | Row k of plane i sits in the staging span at the sizes of the earlier planes plus `k*packed_stride`. It is the source row at `(stride/hsub)*(src_y/vsub + k) + bpb/8*src_x/hsub` after the earlier planes. |
| TextureUpload.PlaneAspect | render/vulkan/texture.c:19-26 | Plane i (i <= 2) has aspect bit PLANE_0 shifted by i. |
| TextureUpload.AlignedIffRegionsExact | render/vulkan/texture.c:56-135 | The intended alignment holds iff every copy region, scaled back by its subsampling, covers exactly the requested rectangle. |
| TextureUpload.CopyRegionInsidePlane | render/vulkan/texture.c:127-135 | Each copy region's offset plus extent lies inside the subsampled plane. |
| TextureUpload.CopyRegionsTileSpan | render/vulkan/texture.c:110-133 | The regions tile the staging span: each starts where the previous one's packed bytes end, and the last ends at `start + bsize`. |
| TextureUpload.ComputeStagingSize | render/vulkan/texture.c:68-74 | The loop's sum is the staging size `bsize`. |
| TextureUpload.CopyRows | render/vulkan/texture.c:120-124 | The row-by-row copy produces exactly the gathered rows. |
| TextureUpload.PackPlane | render/vulkan/texture.c:104-125 | The block copy and the row-by-row copy both produce the plane's packed bytes. |
| TextureUpload.WritePixels | render/vulkan/texture.c:43-163 | It fails, with nothing changed, iff the span has no buffer, has a size other than `bsize`, or mapping fails. On success the staging bytes are the packed planes, each copy region has the stated extent, offset, row length and aspect (COLOR for a single plane), and `last_used` becomes the frame. |
| TextureCreate.ValidateImport | render/vulkan/texture.c:355-392 | Rejections come in this order: unknown format, missing or non-IMPORTABLE modifier, too large, plane-count mismatch, multi-plane without DISJOINT. Each reason holds iff the earlier checks passed and its own check failed. Acceptance means all checks passed. |
| TextureCreate.UnlistedModifierRejected | render/vulkan/texture.c:365-372 | A modifier the device does not list for the usage is rejected. |
| TextureCreate.MemPlaneAspect | render/vulkan/texture.c:28-36 | Memory i (i <= 3) has aspect bit MEMORY_PLANE_0 shifted by i. |
| TextureCreate.MemoriesOkIff | render/vulkan/texture.c:447-525 | The first n memories pass all steps iff each of them does. |
| TextureCreate.ImportMemory | render/vulkan/texture.c:447-525 | One memory stops at its first failing step, in order: fd query, memory type, dup, allocation. Otherwise it is bound to a type both the image and the fd allow, with the memory-plane aspect when the image is disjoint. |
| TextureCreate.ImportMemories | render/vulkan/texture.c:447-525 | The loop stops at the first failing memory. `n_mems` counts only the memories before it, and each is bound to an allowed type. |
| TextureCreate.FailureStops | render/vulkan/texture.c:447-525 | A failing memory makes every longer run of memories fail. |
| TextureCreate.ImportDmabuf | render/vulkan/texture.c:347-543 | The import succeeds iff validation, image creation, every memory and the bind succeed. A rejection creates nothing. `mem_count` is `plane_count` for a disjoint image and 1 otherwise. On failure, exactly the `n_mems` allocated memories are freed. |
| TextureCreate.AllowedByBoth | render/vulkan/texture.c:475-481 | A type allowed by the AND of two requirement words is allowed by each. |
| TextureCreate.TextureFromDmabuf | render/vulkan/texture.c:545-641 | No texture iff the format is unknown or calloc fails. A texture is made iff the import, view and descriptor succeed, whatever the flags. Y_INVERT sets `invert_y` and other flags are ignored. `dmabuf_imported` is set only on success. A texture that fails after the import holds `mem_count` memories, and a failed texture is destroyed like any other: since its `last_used` is 0 it is deferred iff the frame counter is 0. |
| TextureCreate.FullRect | render/vulkan/texture.c:335-336 | The whole-texture rectangle lies inside the texture. |
| TextureCreate.WellFormedSubsampled | render/vulkan/texture.c:219-225 | A recorded format has 1 to 3 planes with non-zero subsampling. |
| TextureCreate.TextureFromPixels | render/vulkan/texture.c:208-345 | No texture iff the format is unknown or calloc fails. The allocation asks for the index as written (`Memory.PixelsMemoryIndexAsWritten`), and is attempted iff image creation succeeded. A texture is made iff every step and the upload succeed, and it then holds one memory. On failure it is destroyed, holding a memory iff the allocation succeeded and a descriptor only if the upload was the step that failed. It is deferred iff the frame counter is 0. |
| TextureCreate.ImportMemType | render/vulkan/texture.c:475-481 | The memory type of an imported memory is the lowest type that the AND of the image's and the fd's words allows. When one exists, both words allow it. |
| Bootstrap.FindExtensions | render/vulkan/vulkan.c:12-30 | It returns nothing iff every requested name is available. Otherwise it returns the first requested name, in request order, that is unavailable. |
| Bootstrap.HasExtension | render/vulkan/vulkan.c:141-152 | A single-name search succeeds iff the name is available. |
| Bootstrap.FilterAvailable | render/vulkan/vulkan.c:140-148 | The result is the available requested names, in request order. |
| Bootstrap.DebugCallback | render/vulkan/vulkan.c:67-94 | Warnings and errors are logged at error level and everything else at info level. The callback always returns false. |
| Bootstrap.MessengerSeveritiesAreErrors | render/vulkan/vulkan.c:186-189 | The severities the messenger subscribes to are exactly those logged at error level. |
| Bootstrap.InstanceCreate | render/vulkan/vulkan.c:99-238 | It fails iff an enumeration, the allocation or creation fails. The extensions are the available requested names in request order, plus debug utils iff debug is on and it is available. There is one validation layer iff debug is on. The messenger info is chained iff debug utils was found, and a messenger exists iff it is chained, its entry point is found and the creation call succeeds. A failed creation call does not fail the instance. |
| Bootstrap.InstanceExtensionsShape | render/vulkan/vulkan.c:133-156 | The enabled instance extensions never exceed the `ext_count+1` capacity. They are all available and include every available requested name, plus debug utils when debugging and available. |
| Bootstrap.DeviceExtrasShape | render/vulkan/vulkan.c:295-354 | The device's own additions number at most 7 and are all available when the trio is. display_control is added only together with swapchain. |
| Bootstrap.AddDeviceExtras | render/vulkan/vulkan.c:312-354 | It fails iff one of the trio (external_memory_fd, external_memory_dma_buf, queue_family_foreign) is unavailable. Otherwise it adds the extras in source order. |
| Bootstrap.SelectDeviceExtensions | render/vulkan/vulkan.c:295-354 | It fails iff one of the trio is missing. Otherwise the enabled extensions are the available requested ones in request order, followed by the extras. |
| Bootstrap.DeviceExtensionsShape | render/vulkan/vulkan.c:295-354 | With the trio available, the enabled device extensions never exceed the `7+ext_count` capacity. They are all available and include every available requested name and the trio. |
| Bootstrap.QueueFamily | render/vulkan/vulkan.c:369-387 | The chosen family is the lowest index with the GRAPHICS flag. |
| Bootstrap.QueryAllFormats | render/vulkan/vulkan.c:423-434 | The tables are `QueryFrom`: the per-format query (`FormatProps.QueryStep`) applied to each table format once, in table order, starting from empty tables. Each recorded format is a table entry, Y'CbCr entries appear only with the feature, and the count is at most the table size. |
| Bootstrap.QueryFromProps | render/vulkan/vulkan.c:432-434 | The query loop only appends to `format_props`, and what it appends is the entries recorded by the formats' own queries, in format order. |
| Bootstrap.RecordedFromEntries | render/vulkan/vulkan.c:432-434 | Every appended entry is the entry of a format whose query recorded one, and every such format has its entry appended. |
| Bootstrap.LaterCodesDiffer | render/vulkan/vulkan.c:432-434 | With distinct codes, no entry appended after a format's own turn carries its code. |
| Bootstrap.RecordedFromDistinct | render/vulkan/vulkan.c:432-434 | With distinct codes, no two appended entries share a fourcc code, because they come from strictly increasing table indices. |
| Bootstrap.QueryFromLookup | render/vulkan/vulkan.c:432-434 | After querying formats with distinct codes, no code is recorded twice. Looking a format up finds exactly the entry its own query recorded, or nothing iff its query recorded none. |
| Bootstrap.QueryAllFormatsRecords | render/vulkan/vulkan.c:423-434 | After the device's loop over the format table, no code is recorded twice. Looking up a table format finds exactly its own query's entry, or nothing iff that query recorded none. |
| Bootstrap.DeviceCreate | render/vulkan/vulkan.c:259-442 | It fails iff an extension enumeration or allocation fails, the trio is missing, device creation fails, the memory-fd function cannot be loaded, or the tables cannot be allocated. Otherwise it has the selected extensions, the lowest graphics queue family, and the tables `QueryFrom` builds from the format table. |
| LegacyRenderer.InitInstance | render/vulkan/renderer.c:124-190 | It succeeds iff the enumerations succeed, all of surface, wayland_surface and the KHX external-memory-fd extension are available, and creation succeeds. It then enables exactly those three. |
| LegacyRenderer.QueueSetup | render/vulkan/renderer.c:204-249 | There is one queue create-info when the graphics and present families are equal and two otherwise. The present queue then aliases the graphics queue. |
| LegacyRenderer.InitDevice | render/vulkan/renderer.c:192-252 | It succeeds iff the enumeration call returns success, the handle is non-null and creation succeeds. With a requested count of 1, a success answer needs exactly one physical device. It has one queue create-info, an aliased present queue, the swapchain extension and the standard validation layer. |
| LegacyRenderer.SwapchainExtent | render/vulkan/renderer.c:299-305 | The extent is the surface's current extent, or 800x500 when its width is `UINT32_MAX`. |
| LegacyRenderer.ScanPresentModesResult | render/vulkan/renderer.c:309-318 | The scan yields MAILBOX if any mode is MAILBOX, else IMMEDIATE if present, else its start. |
| LegacyRenderer.SwapchainPresentMode | render/vulkan/renderer.c:307-319 | With vsync the mode is FIFO. Without it, MAILBOX if offered, else IMMEDIATE if offered, else FIFO. |
| LegacyRenderer.SwapchainImageCount | render/vulkan/renderer.c:321-324 | The count is `minImageCount+1` in 32-bit arithmetic, clamped to `maxImageCount` when that is positive. |
| LegacyRenderer.SwapchainPreTransform | render/vulkan/renderer.c:326-330 | The pre-transform is IDENTITY if supported, otherwise the current transform. |
| LegacyRenderer.SwapchainCompositeAlpha | render/vulkan/renderer.c:332-345 | Composite alpha is the first supported of OPAQUE, PRE, POST, INHERIT, and OPAQUE when none is supported. |
| LegacyRenderer.FirstSupportedAlphaUnique | render/vulkan/renderer.c:332-345 | Only one mode can be the first supported one, so the loop's choice is determined by the supported word. |
| LegacyRenderer.AlphaIsLowestSetBit | render/vulkan/renderer.c:332-345 | The chosen alpha mode is the lowest set bit of the supported word's low four bits. |
| LegacyRenderer.SwapchainUsageAsWritten | render/vulkan/renderer.c:347-354 | The usage as written is exactly COLOR_ATTACHMENT, whatever the format supports. |
| LegacyRenderer.SwapchainUsage | render/vulkan/renderer.c:347-354 | The intended usage has COLOR_ATTACHMENT, and TRANSFER_SRC iff the format supports BLIT_DST. |
| LegacyRenderer.SwapchainUsageCounterexample | render/vulkan/renderer.c:349-354 | For a format with BLIT_DST, TRANSFER_SRC is lost as written and kept as intended. |
| LegacyRenderer.InitSwapchain | render/vulkan/renderer.c:254-365 | The parameters are exactly the chosen extent, present mode, clamped image count and pre-transform, the first supported alpha, and the usage as written. The usage is therefore COLOR_ATTACHMENT alone, whatever the blit check found. |
| Egl.EglError | backend/egl.c:17-52 | Each listed EGL code maps to its fixed string, and the result is "Unknown" iff the code is not listed. |
| Egl.EglErrorInjective | backend/egl.c:17-52 | Distinct listed codes get distinct strings. |
| Egl.EglExtsAsWritten | backend/egl.c:58-77 | As written, the check fails iff `eglGetPlatformDisplayEXT` is missing. |
| Egl.EglExts | backend/egl.c:58-77 | The intended check fails iff either platform entry point is missing. |
| Egl.EglExtsCounterexample | backend/egl.c:67-74 | With only the window-surface entry point missing, the check as written succeeds and the intended one fails. |
| Egl.FirstXrgb | backend/egl.c:96-115 | It returns the first matched config whose visual is XRGB8888, or nothing iff none is. |
| Egl.EglGetConfig | backend/egl.c:79-119 | The loop's result is `ChosenConfig`. It fails when the config call fails, there are zero configs, or choosing fails. On Wayland it picks the first matched config, failing iff none matched. Otherwise it picks the first config whose visual query succeeds with XRGB8888, failing iff none does. |
| Egl.StrStr | backend/egl.c:166-167 | It finds the first occurrence of a name in the extension string, or nothing iff the name does not occur. |
| Egl.EglInit | backend/egl.c:121-196 | It succeeds iff every step succeeds: the entry-point check as written (so a missing window-surface entry point passes), the allocation, binding the API, the display, its initialisation, a chosen config, the context, and both "EGL_WL_bind_wayland_display" and "EGL_KHR_image_base" in the extension string. The state then holds the config `egl_get_config` chooses: the first matched on Wayland, the first XRGB8888 one elsewhere. |
| Egl.BindDisplayAsWritten | backend/egl.c:209-216 | It returns false iff the query entry point is unloaded. Otherwise it records the display before calling bind, and that call uses a null pointer when the bind entry point is unloaded. |
| Egl.BindDisplay | backend/egl.c:209-216 | It never calls a null entry point and refuses iff the query or bind entry point is unloaded. Otherwise it records the display and returns the bind's answer. |
| Egl.BindDisplayAgrees | backend/egl.c:209-216 | The guarded bind and the bind as written agree exactly when the latter calls no null entry point. |
| Egl.BindDisplayCounterexample | backend/egl.c:210-215 | With the query entry point loaded and the bind entry point not, the bind as written calls a null pointer and the guarded bind refuses. |
| Egl.QueryBuffer | backend/egl.c:218-225 | It returns false iff the query entry point is unloaded, and otherwise the entry point's answer. |

## Left out

- Native calls. Vulkan, EGL, `fcntl` and `calloc` calls are answers the caller supplies. The model does not describe what the driver does.
- Byte copying. `memcpy` into the mapped staging memory is the sequence of bytes the mapping ends up holding, not raw memory.
- TextureUpload.WritePixels: the staging quantities are unbounded integers, so the model covers uploads whose packed size is below 2^32. Above that, `uint32_t bsize` (render/vulkan/texture.c:68-73) wraps, the span is requested with the wrapped size and the size check at render/vulkan/texture.c:78 compares the span with that wrapped value, so the check does not catch the wrap; whether such an upload fails then depends on the allocator's answer for a small size, which is not modelled. For example, a full 32768x32768 XRGB8888 upload has `bsize` 2^32, which wraps to 0. The other 32-bit quantities are unbounded too: `packed_stride` (render/vulkan/texture.c:109), the fast-path length `packed_stride * (height / vsub)` (render/vulkan/texture.c:117), the source advance `(stride / hsub) * (height / vsub)` (render/vulkan/texture.c:146), and `buf_off` (render/vulkan/texture.c:110), which truncates the span start plus the mapped offset to 32 bits.
- LegacyRenderer.InitDevice: the draft asks `vkEnumeratePhysicalDevices` for one handle and fails on any result other than success (render/vulkan/renderer.c:194-197). On a machine with two or more physical devices the call returns `VK_INCOMPLETE`, so the draft fails although a device was written. The model's `enumerateOk` answer is false in that case; choosing among several devices is not modelled.
- TextureUpload.WritePixels: the alignment it requires is the intended one (`height` divisible by `vsub`). On table formats the checks as written imply it (`TextureUpload.AsWrittenStricterOnTable`).
- TextureCreate.ImportDmabuf: requires fewer than 4 planes for a known format. This is the source's assertion at render/vulkan/texture.c:364, and it also excludes four-plane buffers.
- FormatProps.FormatPropsFromDrm: the implementation of `wlr_vk_format_from_drm` is not part of this model. Returning the first entry with the code is a modelling choice; on the tables a device builds no code is recorded twice (`Bootstrap.QueryAllFormatsRecords`), so the choice does not matter there.
- LegacyRenderer.InitSwapchain: the draft at render/vulkan/renderer.c:263-296 declares `color_space` and the surface entry points as locals that are never initialised or loaded, then calls them. The model takes the surface capabilities and present modes as answers, as a working version would obtain them; the draft as written never obtains them, and the colour space is not modelled.
- Memory.FindMemType: the header promises "any" suitable memory type. Returning the lowest one is a modelling choice, since the implementation of `wlr_vk_find_mem_type` is not part of this model.
- TextureCreate.TextureFromPixels: the allocation asks for the index as written, which need not be a type the image allows (see Findings). The contract does not say the memory is device-local or allowed by the image, and whether that allocation succeeds is the caller's answer.
- TextureCreate.TextureFromDmabuf: when the import itself fails, the contract does not state the record's `mem_count`. The import has already freed and nulled those memories, so destroying the record frees nothing real.
- Bootstrap.DeviceCreate: requires a graphics queue family to exist once the search is reached. This is the source's assertion at render/vulkan/vulkan.c:386.
- TextureCreate.ValidateImport: dmabuf width and height are the `uint32_t` values after the cast at render/vulkan/texture.c:374-375. A negative `int` width is not modelled separately.
- Per-plane file descriptors, offsets and strides of a dmabuf are not modelled. They only feed native calls.
- The staging-buffer suballocator (`vulkan_get_stage_span`), the shared buffers, descriptor pools and the begin/end frame controller are not part of this model. Their implementations are not among the modelled files. A span is a caller-supplied answer, and the end of a frame follows the header comments at include/render/vulkan.h:200-215.
- TextureState.EndFrame: the header says the frame counter only increases. With a `uint32_t` counter it wraps from 2^32-1 to 0, and the model states the wrap-around instead.
- The `owned` and `transitioned` flags of a texture are not modelled. No modelled operation sets them.
- The `vsync` flag of `init_swapchain` is hard-coded true at render/vulkan/renderer.c:261. It is a parameter here so that both branches of the present-mode choice are covered.
- The draft renderer's wl_drm handlers (render/vulkan/renderer.c:16-120) and its leftover code after line 365 are not part of this model. Neither are the windowing backends, the GLES2 renderer or the shader blob.
- Plane arrays: the header's `planes[WLR_DMABUF_MAX_PLANES]` array is a sequence whose length is the plane count. The bound of at most 4 holds for every table entry, since they have at most 3 planes.

## Findings

| source | as written | input that shows it | evidently intended | confidence | as-written member | corrected member |
|---|---|---|---|---|---|---|
| render/vulkan/texture.c:61 | `height` is checked for divisibility by `hsub` | a 2x1 upload at (0,0) into a YUYV texture (hsub 2, vsub 1) | `height % vsub == 0`, the condition that makes every copy region exact | high, not executed | TextureUpload.HeightCheckCounterexample | TextureUpload.AlignedIffRegionsExact |
| render/vulkan/texture.c:255-272 | the result of the memory-type search (an index) is ANDed with the image's `memoryTypeBits` (a mask) and used as the memory type index | a device with type 0 host-visible and type 1 device-local, and an image whose `memoryTypeBits` is 0b10: the search gives 1, and `1 & 0b10` is 0, a type the image does not allow | the lowest device-local type allowed by the image's mask | high, not executed | Memory.PixelsMemoryIndexCounterexample | Memory.PixelsMemoryIndex |
| render/vulkan/renderer.c:349-354 | TRANSFER_SRC is ORed into `imageUsage`, then `imageUsage` is overwritten with COLOR_ATTACHMENT | a surface format whose optimal tiling supports BLIT_DST | COLOR_ATTACHMENT, plus TRANSFER_SRC when the format supports BLIT_DST | high, not executed | LegacyRenderer.SwapchainUsageCounterexample | LegacyRenderer.SwapchainUsage |
| backend/egl.c:70 | the check after loading `eglCreatePlatformWindowSurfaceEXT` tests `get_platform_display` again | an EGL that provides `eglGetPlatformDisplayEXT` but not `eglCreatePlatformWindowSurfaceEXT` | fail when `create_platform_window_surface` is missing | high, not executed | Egl.EglExtsCounterexample | Egl.EglExts |
| backend/egl.c:210-215 | the guard tests the query entry point, then the bind entry point is called | an EGL that returns `eglQueryWaylandBufferWL` but not `eglBindWaylandDisplayWL` | also refuse when the bind entry point is missing | low, not executed | Egl.BindDisplayCounterexample | Egl.BindDisplay |
