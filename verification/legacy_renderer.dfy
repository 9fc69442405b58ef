/** The earlier draft renderer: its instance check, its device and queue
    set-up, and the swapchain parameters it derives from the surface
    capabilities. Every native call is an answer supplied by the caller. */
module LegacyRenderer {
  import opened Common
  import opened Vk
  import Bootstrap

  const EXT_SURFACE: string := "VK_KHR_surface"
  const EXT_WAYLAND_SURFACE: string := "VK_KHR_wayland_surface"
  const EXT_KHX_EXTERNAL_MEMORY_FD: string := "VK_KHX_external_memory_fd"
  const LAYER_STANDARD_VALIDATION: string := "VK_LAYER_LUNARG_standard_validation"

  /** The instance extensions the draft renderer cannot work without. */
  const RequiredInstanceExtensions: seq<string> := [EXT_SURFACE, EXT_WAYLAND_SURFACE, EXT_KHX_EXTERNAL_MEMORY_FD]

  /** The answers of instance creation: both enumerations and creation. */
  datatype LegacyInstanceEnv = LegacyInstanceEnv(
    enumerateOk: bool,
    available: seq<string>,
    enumerate2Ok: bool,
    createOk: bool)

  /** `init_instance`: fails unless all three required extensions are
      available, and then enables exactly those. */
  method InitInstance(env: LegacyInstanceEnv) returns (enabled: Option<seq<string>>)
    ensures enabled.Some? <==>
      && env.enumerateOk && |env.available| > 0 && env.enumerate2Ok
      && EXT_SURFACE in env.available && EXT_WAYLAND_SURFACE in env.available
      && EXT_KHX_EXTERNAL_MEMORY_FD in env.available
      && env.createOk
    ensures enabled.Some? ==> enabled.value == RequiredInstanceExtensions
  {
    if !env.enumerateOk || |env.available| == 0 || !env.enumerate2Ok {
      return None;
    }
    var missing := Bootstrap.FindExtensions(env.available, RequiredInstanceExtensions);
    if missing.Some? {
      return None;
    }
    assert RequiredInstanceExtensions[0] in env.available;
    assert RequiredInstanceExtensions[1] in env.available;
    assert RequiredInstanceExtensions[2] in env.available;
    if !env.createOk {
      return None;
    }
    return Some(RequiredInstanceExtensions);
  }

  /** A queue handle, identified by its family and index in that family. */
  datatype Queue = Queue(family: nat, index: nat)

  /** The device the draft renderer creates: the queue families of its
      queue create-infos, its layers and extensions, and its two queues. */
  datatype LegacyDevice = LegacyDevice(
    queueInfoFamilies: seq<nat>,
    layers: seq<string>,
    extensions: seq<string>,
    graphicsQueue: Queue,
    presentQueue: Queue)

  /** The queue part of `init_device` for given graphics and present
      families: one create-info when the families coincide (two otherwise),
      the first with family index 0 as written, and the present queue
      aliasing the graphics queue when the families coincide. */
  function QueueSetup(graphicsFam: nat, presentFam: nat): (r: (seq<nat>, Queue, Queue))
    ensures |r.0| == (if graphicsFam == presentFam then 1 else 2)
    ensures r.0[0] == 0
    ensures |r.0| == 2 ==> r.0[1] == presentFam
    ensures r.1 == Queue(graphicsFam, 0)
    ensures r.2.family == presentFam
    ensures graphicsFam == presentFam ==> r.2 == r.1
  {
    var infos := [0, presentFam];
    var oneQueue := graphicsFam == presentFam;
    var graphics := Queue(graphicsFam, 0);
    (if oneQueue then infos[..1] else infos, graphics, if oneQueue then graphics else Queue(presentFam, 0))
  }

  /** `init_device`: the first physical device, both families fixed to 0,
      the swapchain extension and the standard validation layer.
      `enumerateOk` means the enumeration asked for one handle returned
      success, which needs exactly one physical device: with more, the
      call reports an incomplete result and the draft fails. `hasDevice`
      means the returned handle is non-null. */
  function InitDevice(enumerateOk: bool, hasDevice: bool, createOk: bool): (d: Option<LegacyDevice>)
    ensures d.Some? <==> enumerateOk && hasDevice && createOk
    ensures d.Some? ==> |d.value.queueInfoFamilies| == 1 && d.value.presentQueue == d.value.graphicsQueue
    ensures d.Some? ==> d.value.extensions == [Bootstrap.EXT_SWAPCHAIN] && d.value.layers == [LAYER_STANDARD_VALIDATION]
  {
    if !enumerateOk || !hasDevice || !createOk then None
    else
      var q := QueueSetup(0, 0);
      Some(LegacyDevice(q.0, [LAYER_STANDARD_VALIDATION], [Bootstrap.EXT_SWAPCHAIN], q.1, q.2))
  }

  /** VkSurfaceCapabilitiesKHR, as far as the swapchain set-up reads it. */
  datatype SurfaceCaps = SurfaceCaps(
    minImageCount: u32,
    maxImageCount: u32,
    currentWidth: u32,
    currentHeight: u32,
    supportedTransforms: Flags,
    currentTransform: Flags,
    supportedCompositeAlpha: Flags)

  /** The size the draft uses when the surface leaves it to the swapchain. */
  const DEFAULT_WIDTH: nat := 800
  const DEFAULT_HEIGHT: nat := 500

  /** The swapchain extent: the surface's current extent, unless its width
      is the special value 0xFFFFFFFF, which leaves the size to the
      swapchain and selects the default 800x500. */
  function SwapchainExtent(caps: SurfaceCaps): (e: Extent)
    ensures caps.currentWidth != U32_MAX ==> e == Extent(caps.currentWidth, caps.currentHeight)
    ensures caps.currentWidth == U32_MAX ==> e == Extent(DEFAULT_WIDTH, DEFAULT_HEIGHT)
  {
    if caps.currentWidth == U32_MAX then Extent(DEFAULT_WIDTH, DEFAULT_HEIGHT)
    else Extent(caps.currentWidth, caps.currentHeight)
  }

  /** The present-mode scan of `init_swapchain` over `modes[i..]`, starting
      from `current`: stop at the first MAILBOX, otherwise move to IMMEDIATE
      on an IMMEDIATE entry unless MAILBOX is already chosen. */
  function ScanPresentModes(modes: seq<PresentMode>, i: nat, current: PresentMode): PresentMode
    requires i <= |modes|
    decreases |modes| - i
  {
    if i == |modes| then current
    else if modes[i] == Mailbox then Mailbox
    else ScanPresentModes(modes, i + 1, if current != Mailbox && modes[i] == Immediate then Immediate else current)
  }

  /** The mode the draft prefers without vsync: MAILBOX when offered, else
      IMMEDIATE when offered, else FIFO. */
  function PreferredPresentMode(modes: seq<PresentMode>): PresentMode {
    if Mailbox in modes then Mailbox
    else if Immediate in modes then Immediate
    else Fifo
  }

  /** The scan, from a state that is FIFO or IMMEDIATE, ends in MAILBOX if one
      is left, otherwise IMMEDIATE if one is left or already chosen, and
      otherwise stays where it started. */
  lemma {:induction false} ScanPresentModesResult(modes: seq<PresentMode>, i: nat, current: PresentMode)
    requires i <= |modes| && current in {Fifo, Immediate}
    ensures ScanPresentModes(modes, i, current) ==
      if Mailbox in modes[i..] then Mailbox
      else if Immediate in modes[i..] then Immediate
      else current
    decreases |modes| - i
  {
    if i < |modes| {
      assert modes[i..] == [modes[i]] + modes[i + 1..];
      if modes[i] != Mailbox {
        ScanPresentModesResult(modes, i + 1, if modes[i] == Immediate then Immediate else current);
      }
    }
  }

  /** `init_swapchain`'s present mode: FIFO with vsync (which the draft
      always sets), otherwise the scan of the offered modes starting from
      FIFO. */
  function SwapchainPresentMode(vsync: bool, modes: seq<PresentMode>): (m: PresentMode)
    ensures vsync ==> m == Fifo
    ensures !vsync ==> m == PreferredPresentMode(modes)
  {
    if vsync then Fifo
    else
      ScanPresentModesResult(modes, 0, Fifo);
      assert modes[0..] == modes;
      ScanPresentModes(modes, 0, Fifo)
  }

  /** `minImageCount + 1` in 32-bit unsigned arithmetic, then clamped to the
      maximum when the surface has one (a maximum of 0 means none). */
  function SwapchainImageCount(caps: SurfaceCaps): (n: u32)
    ensures caps.maxImageCount > 0 ==> n <= caps.maxImageCount
    ensures caps.minImageCount < U32_MAX && (caps.maxImageCount == 0 || caps.minImageCount < caps.maxImageCount) ==>
      n == caps.minImageCount + 1
    ensures caps.minImageCount < U32_MAX && caps.maxImageCount > 0 && caps.minImageCount >= caps.maxImageCount ==>
      n == caps.maxImageCount
    ensures caps.minImageCount == U32_MAX ==> n == 0
  {
    var pref: u32 := (caps.minImageCount + 1) % 0x1_0000_0000;
    if caps.maxImageCount > 0 && pref > caps.maxImageCount then caps.maxImageCount else pref
  }

  /** The pre-transform: the identity when the surface supports it,
      otherwise the surface's current transform. */
  function SwapchainPreTransform(caps: SurfaceCaps): (t: Flags)
    ensures Intersects(caps.supportedTransforms, SURFACE_TRANSFORM_IDENTITY) ==> t == SURFACE_TRANSFORM_IDENTITY
    ensures !Intersects(caps.supportedTransforms, SURFACE_TRANSFORM_IDENTITY) ==> t == caps.currentTransform
  {
    if !Intersects(caps.supportedTransforms, SURFACE_TRANSFORM_IDENTITY) then caps.currentTransform
    else SURFACE_TRANSFORM_IDENTITY
  }

  /** The composite-alpha modes in the order the draft tries them. */
  const AlphaOrder: seq<Flags> := [COMPOSITE_ALPHA_OPAQUE, COMPOSITE_ALPHA_PRE_MULTIPLIED,
                                   COMPOSITE_ALPHA_POST_MULTIPLIED, COMPOSITE_ALPHA_INHERIT]

  /** `alpha` is the first mode in `AlphaOrder` that `supported` has, or
      OPAQUE when it has none of them. */
  predicate FirstSupportedAlpha(supported: Flags, alpha: Flags) {
    || (alpha == COMPOSITE_ALPHA_OPAQUE && forall k :: 0 <= k < |AlphaOrder| ==> !Intersects(supported, AlphaOrder[k]))
    || exists i :: (0 <= i < |AlphaOrder| && AlphaOrder[i] == alpha && Intersects(supported, alpha)
         && forall k :: 0 <= k < i ==> !Intersects(supported, AlphaOrder[k]))
  }

  /** At most one mode is the first supported one. */
  lemma FirstSupportedAlphaUnique(supported: Flags, a1: Flags, a2: Flags)
    requires FirstSupportedAlpha(supported, a1) && FirstSupportedAlpha(supported, a2)
    ensures a1 == a2
  {
    if exists i :: (0 <= i < |AlphaOrder| && AlphaOrder[i] == a1 && Intersects(supported, a1)
         && forall k :: 0 <= k < i ==> !Intersects(supported, AlphaOrder[k])) {
      var i1 :| 0 <= i1 < |AlphaOrder| && AlphaOrder[i1] == a1 && Intersects(supported, a1)
        && forall k :: 0 <= k < i1 ==> !Intersects(supported, AlphaOrder[k]);
      var i2 :| 0 <= i2 < |AlphaOrder| && AlphaOrder[i2] == a2 && Intersects(supported, a2)
        && forall k :: 0 <= k < i2 ==> !Intersects(supported, AlphaOrder[k]);
      assert i1 == i2;
    }
  }

  /** The composite-alpha loop of `init_swapchain`: the first mode in
      `AlphaOrder` that the surface supports, or OPAQUE when it supports
      none of them. */
  method SwapchainCompositeAlpha(supported: Flags) returns (alpha: Flags)
    ensures FirstSupportedAlpha(supported, alpha)
  {
    alpha := COMPOSITE_ALPHA_OPAQUE;
    for i := 0 to 4
      invariant forall k :: 0 <= k < i ==> !Intersects(supported, AlphaOrder[k])
    {
      if Intersects(supported, AlphaOrder[i]) {
        alpha := AlphaOrder[i];
        assert AlphaOrder[i] == alpha;
        return;
      }
    }
  }

  /** The four alpha modes are the four lowest bits, so the first supported
      one in `AlphaOrder` is the lowest set bit of `supported & 0xF`. */
  lemma AlphaIsLowestSetBit(supported: Flags, alpha: Flags)
    requires alpha in AlphaOrder && Intersects(supported, alpha)
    requires forall k :: 0 <= k < |AlphaOrder| && AlphaOrder[k] < alpha ==> !Intersects(supported, AlphaOrder[k])
    ensures alpha == (supported & 0xF) & -(supported & 0xF)
  {
    var low := supported & 0xF;
    if alpha == COMPOSITE_ALPHA_OPAQUE {
      assert low & 1 == 1;
    } else if alpha == COMPOSITE_ALPHA_PRE_MULTIPLIED {
      assert !Intersects(supported, AlphaOrder[0]);
      assert low & 3 == 2;
    } else if alpha == COMPOSITE_ALPHA_POST_MULTIPLIED {
      assert !Intersects(supported, AlphaOrder[0]) && !Intersects(supported, AlphaOrder[1]);
      assert low & 7 == 4;
    } else {
      assert !Intersects(supported, AlphaOrder[0]) && !Intersects(supported, AlphaOrder[1]);
      assert !Intersects(supported, AlphaOrder[2]);
      assert low == 8;
    }
  }

  /** The image usage as written: the blit check ORs TRANSFER_SRC into the
      zeroed field, and the assignment after it replaces the field with
      COLOR_ATTACHMENT, discarding the check's result. */
  function SwapchainUsageAsWritten(optimalTilingFeatures: Flags): (usage: Flags)
    ensures usage == IMAGE_USAGE_COLOR_ATTACHMENT
  {
    var afterBlitCheck: Flags :=
      if Intersects(optimalTilingFeatures, FORMAT_FEATURE_BLIT_DST) then 0 | IMAGE_USAGE_TRANSFER_SRC else 0;
    var afterAssignment: Flags := IMAGE_USAGE_COLOR_ATTACHMENT;
    afterAssignment
  }

  /** The usage evidently intended: colour attachment, plus transfer source
      when the format supports blits. */
  function SwapchainUsage(optimalTilingFeatures: Flags): (usage: Flags)
    ensures Intersects(usage, IMAGE_USAGE_COLOR_ATTACHMENT)
    ensures Intersects(usage, IMAGE_USAGE_TRANSFER_SRC) <==> Intersects(optimalTilingFeatures, FORMAT_FEATURE_BLIT_DST)
  {
    IMAGE_USAGE_COLOR_ATTACHMENT
      | (if Intersects(optimalTilingFeatures, FORMAT_FEATURE_BLIT_DST) then IMAGE_USAGE_TRANSFER_SRC else 0)
  }

  /** A format with blit support gets no TRANSFER_SRC usage as written,
      although the intended usage has it. */
  lemma SwapchainUsageCounterexample()
    ensures !Intersects(SwapchainUsageAsWritten(FORMAT_FEATURE_BLIT_DST), IMAGE_USAGE_TRANSFER_SRC)
    ensures Intersects(SwapchainUsage(FORMAT_FEATURE_BLIT_DST), IMAGE_USAGE_TRANSFER_SRC)
  {
  }

  /** The parameters `init_swapchain` passes to swapchain creation. */
  datatype SwapchainParams = SwapchainParams(
    extent: Extent,
    presentMode: PresentMode,
    minImageCount: u32,
    preTransform: Flags,
    compositeAlpha: Flags,
    imageUsage: Flags)

  /** The parameter selection of `init_swapchain`, in source order: the
      zeroed create-info gets its extent and present mode, the blit check
      ORs TRANSFER_SRC into the usage, and the assignments that follow set
      the image count, replace the usage with COLOR_ATTACHMENT, and set the
      pre-transform and the composite alpha. */
  method InitSwapchain(caps: SurfaceCaps, modes: seq<PresentMode>, vsync: bool, formatFeatures: Flags)
    returns (p: SwapchainParams)
    ensures p == SwapchainParams(SwapchainExtent(caps), SwapchainPresentMode(vsync, modes), SwapchainImageCount(caps),
                                 SwapchainPreTransform(caps), p.compositeAlpha, SwapchainUsageAsWritten(formatFeatures))
    ensures FirstSupportedAlpha(caps.supportedCompositeAlpha, p.compositeAlpha)
    ensures p.presentMode == (if vsync then Fifo else PreferredPresentMode(modes))
    ensures caps.maxImageCount > 0 ==> p.minImageCount <= caps.maxImageCount
    ensures p.imageUsage == IMAGE_USAGE_COLOR_ATTACHMENT
  {
    var alpha := SwapchainCompositeAlpha(caps.supportedCompositeAlpha);
    p := SwapchainParams(SwapchainExtent(caps), SwapchainPresentMode(vsync, modes), 0, 0, 0, 0);
    if Intersects(formatFeatures, FORMAT_FEATURE_BLIT_DST) {
      p := p.(imageUsage := p.imageUsage | IMAGE_USAGE_TRANSFER_SRC);
    }
    p := p.(minImageCount := SwapchainImageCount(caps), imageUsage := IMAGE_USAGE_COLOR_ATTACHMENT,
            preTransform := SwapchainPreTransform(caps), compositeAlpha := alpha);
  }
}
