/** The numeric values of the native Vulkan, DRM and wlroots constants the
    renderer tests against. Values follow the public Vulkan and drm_fourcc
    headers; the renderer only ever compares or masks them. */
module Vk {
  import opened Common

  // VkFormatFeatureFlagBits
  const FORMAT_FEATURE_SAMPLED_IMAGE: Flags := 0x0000_0001
  const FORMAT_FEATURE_COLOR_ATTACHMENT: Flags := 0x0000_0080
  const FORMAT_FEATURE_BLIT_DST: Flags := 0x0000_0800
  const FORMAT_FEATURE_TRANSFER_SRC: Flags := 0x0000_4000
  const FORMAT_FEATURE_TRANSFER_DST: Flags := 0x0000_8000
  const FORMAT_FEATURE_DISJOINT: Flags := 0x0040_0000

  // VkImageUsageFlagBits
  const IMAGE_USAGE_TRANSFER_SRC: Flags := 0x01
  const IMAGE_USAGE_TRANSFER_DST: Flags := 0x02
  const IMAGE_USAGE_SAMPLED: Flags := 0x04
  const IMAGE_USAGE_COLOR_ATTACHMENT: Flags := 0x10

  // VkExternalMemoryFeatureFlagBits
  const EXTERNAL_MEMORY_FEATURE_IMPORTABLE: Flags := 0x4

  // VkExternalMemoryHandleTypeFlagBits
  const EXTERNAL_MEMORY_HANDLE_TYPE_DMA_BUF: Flags := 0x200

  // VkQueueFlagBits
  const QUEUE_GRAPHICS: Flags := 0x1

  // VkImageAspectFlagBits
  const IMAGE_ASPECT_COLOR: Flags := 0x01
  const IMAGE_ASPECT_PLANE_0: Flags := 0x10
  const IMAGE_ASPECT_PLANE_1: Flags := 0x20
  const IMAGE_ASPECT_PLANE_2: Flags := 0x40
  const IMAGE_ASPECT_MEMORY_PLANE_0: Flags := 0x080
  const IMAGE_ASPECT_MEMORY_PLANE_1: Flags := 0x100
  const IMAGE_ASPECT_MEMORY_PLANE_2: Flags := 0x200
  const IMAGE_ASPECT_MEMORY_PLANE_3: Flags := 0x400

  // VkSurfaceTransformFlagBitsKHR
  const SURFACE_TRANSFORM_IDENTITY: Flags := 0x1

  // VkCompositeAlphaFlagBitsKHR
  const COMPOSITE_ALPHA_OPAQUE: Flags := 0x1
  const COMPOSITE_ALPHA_PRE_MULTIPLIED: Flags := 0x2
  const COMPOSITE_ALPHA_POST_MULTIPLIED: Flags := 0x4
  const COMPOSITE_ALPHA_INHERIT: Flags := 0x8

  /** VkPresentModeKHR (only the modes the swapchain set-up names). */
  datatype PresentMode = Immediate | Mailbox | Fifo | FifoRelaxed

  /** VkDebugUtilsMessageSeverityFlagBitsEXT. */
  datatype Severity = Verbose | Info | Warning | Error

  /** The VkFormat values used by the static format table. */
  datatype VkFormat =
    | B8G8R8A8_Srgb
    | R8G8B8A8_Srgb
    | B8G8R8G8_422_Unorm
    | G8B8G8R8_422_Unorm
    | G8_B8R8_2Plane_420_Unorm
    | G8_B8R8_2Plane_422_Unorm
    | G8_B8_R8_3Plane_420_Unorm
    | G8_B8_R8_3Plane_422_Unorm
    | G8_B8_R8_3Plane_444_Unorm

  // DRM fourcc codes (little-endian packing of four characters).
  const DRM_FORMAT_ARGB8888: u32 := 0x3432_5241 // 'AR24'
  const DRM_FORMAT_XRGB8888: u32 := 0x3432_5258 // 'XR24'
  const DRM_FORMAT_XBGR8888: u32 := 0x3432_4258 // 'XB24'
  const DRM_FORMAT_ABGR8888: u32 := 0x3432_4241 // 'AB24'
  const DRM_FORMAT_YUYV: u32 := 0x5659_5559     // 'YUYV'
  const DRM_FORMAT_UYVY: u32 := 0x5956_5955     // 'UYVY'
  const DRM_FORMAT_NV12: u32 := 0x3231_564E     // 'NV12'
  const DRM_FORMAT_NV16: u32 := 0x3631_564E     // 'NV16'
  const DRM_FORMAT_YUV420: u32 := 0x3231_5559   // 'YU12'
  const DRM_FORMAT_YUV422: u32 := 0x3631_5559   // 'YU16'
  const DRM_FORMAT_YUV444: u32 := 0x3432_5559   // 'YU24'

  /** WLR_DMABUF_MAX_PLANES: length of every fixed per-plane array. */
  const MAX_PLANES: nat := 4

  /** WLR_DMABUF_ATTRIBUTES_FLAGS_Y_INVERT. */
  const DMABUF_FLAG_Y_INVERT: Flags := 0x1
}
