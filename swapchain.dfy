/**
 * The policies GraphicsEngine applies when it builds a swapchain and its
 * attachments: present mode, surface format, extent, image count, image
 * sharing, depth format and MSAA sample count.  All of them are pure
 * choices over what the driver reports about the surface and the device.
 */
module SwapchainPolicy {
  import opened Vulkan

  /** GetPresentMode: mailbox when offered, else FIFO when offered, else immediate. */
  method GetPresentMode(presentModes: seq<PresentMode>) returns (mode: PresentMode)
    ensures Mailbox in presentModes ==> mode == Mailbox
    ensures Mailbox !in presentModes && Fifo in presentModes ==> mode == Fifo
    ensures Mailbox !in presentModes && Fifo !in presentModes ==> mode == Immediate
  {
    var fifoSupport := false;
    var i := 0;
    while i < |presentModes|
      invariant 0 <= i <= |presentModes|
      invariant Mailbox !in presentModes[..i]
      invariant fifoSupport <==> Fifo in presentModes[..i]
    {
      if presentModes[i] == Mailbox {
        return presentModes[i];
      } else if presentModes[i] == Fifo {
        fifoSupport := true;
      }
      assert presentModes[..i + 1] == presentModes[..i] + [presentModes[i]];
      i := i + 1;
    }
    assert presentModes[..i] == presentModes;
    mode := if fifoSupport then Fifo else Immediate;
  }

  /** VkSurfaceFormatKHR. */
  datatype SurfaceFormat = SurfaceFormat(format: Format, colorSpace: ColorSpace)

  const PREFERRED_SURFACE_FORMAT: SurfaceFormat := SurfaceFormat(B8G8R8A8Unorm, SrgbNonlinear)

  /**
   * GetSurfaceFormat: the preferred BGRA8/sRGB pair when the surface offers
   * it, else the first format offered.  Reading formats[0] of an empty list
   * is undefined behaviour, so the list must be non-empty; a device is only
   * selected when its surface reports at least one format.
   */
  method GetSurfaceFormat(formats: seq<SurfaceFormat>) returns (chosen: SurfaceFormat)
    requires |formats| > 0
    ensures PREFERRED_SURFACE_FORMAT in formats ==> chosen == PREFERRED_SURFACE_FORMAT
    ensures PREFERRED_SURFACE_FORMAT !in formats ==> chosen == formats[0]
    ensures chosen in formats
  {
    var i := 0;
    while i < |formats|
      invariant 0 <= i <= |formats|
      invariant PREFERRED_SURFACE_FORMAT !in formats[..i]
    {
      if formats[i].format == B8G8R8A8Unorm && formats[i].colorSpace == SrgbNonlinear {
        return formats[i];
      }
      assert formats[..i + 1] == formats[..i] + [formats[i]];
      i := i + 1;
    }
    assert formats[..i] == formats;
    chosen := formats[0];
  }

  datatype Extent2D = Extent2D(width: Uint32, height: Uint32)

  datatype SurfaceTransform = Identity | OtherTransform(bit: nat)

  /** VkSurfaceCapabilitiesKHR, the fields the engine reads. */
  datatype SurfaceCapabilities = SurfaceCapabilities(
    minImageCount: Uint32,
    maxImageCount: Uint32,
    currentExtent: Extent2D,
    minImageExtent: Extent2D,
    maxImageExtent: Extent2D,
    currentTransform: SurfaceTransform)

  /** The bounds std::clamp needs: the lower bound does not exceed the upper one. */
  predicate ExtentBoundsOrdered(caps: SurfaceCapabilities) {
    caps.minImageExtent.width <= caps.maxImageExtent.width
    && caps.minImageExtent.height <= caps.maxImageExtent.height
  }

  predicate WithinExtentBounds(extent: Extent2D, caps: SurfaceCapabilities) {
    caps.minImageExtent.width <= extent.width <= caps.maxImageExtent.width
    && caps.minImageExtent.height <= extent.height <= caps.maxImageExtent.height
  }

  /**
   * What the Vulkan specification promises about the capabilities: the
   * bounds are ordered, and the current extent is either the special value
   * 0xFFFFFFFF (the surface size follows the swapchain) or lies within them.
   */
  predicate ConsistentCapabilities(caps: SurfaceCapabilities) {
    ExtentBoundsOrdered(caps)
    && (caps.currentExtent.width != UINT32_MAX ==> WithinExtentBounds(caps.currentExtent, caps))
  }

  /** std::clamp: undefined unless lo <= hi. */
  function Clamp(v: nat, lo: nat, hi: nat): (r: nat)
    requires lo <= hi
    ensures lo <= r <= hi
    ensures lo <= v <= hi ==> r == v
    ensures v < lo ==> r == lo
    ensures v > hi ==> r == hi
  {
    if v < lo then lo else if hi < v then hi else v
  }

  /** The framebuffer size GLFW reports, clamped into the surface's bounds after conversion to uint32_t. */
  function ClampedFramebufferExtent(caps: SurfaceCapabilities, framebufferWidth: int, framebufferHeight: int): (extent: Extent2D)
    requires ExtentBoundsOrdered(caps)
    ensures WithinExtentBounds(extent, caps)
    ensures WithinExtentBounds(Extent2D(ToUint32(framebufferWidth), ToUint32(framebufferHeight)), caps)
      ==> extent == Extent2D(ToUint32(framebufferWidth), ToUint32(framebufferHeight))
  {
    Extent2D(
      Clamp(ToUint32(framebufferWidth), caps.minImageExtent.width, caps.maxImageExtent.width),
      Clamp(ToUint32(framebufferHeight), caps.minImageExtent.height, caps.maxImageExtent.height))
  }

  /**
   * GetExtent as written: it takes the current extent unless the MINIMUM
   * extent's width is 0xFFFFFFFF, and only then asks the window for its
   * framebuffer size (a parameter here).
   */
  function GetExtentAsWritten(caps: SurfaceCapabilities, framebufferWidth: int, framebufferHeight: int): (extent: Extent2D)
    requires caps.minImageExtent.width == UINT32_MAX ==> ExtentBoundsOrdered(caps)
    ensures caps.minImageExtent.width != UINT32_MAX ==> extent == caps.currentExtent
    ensures caps.minImageExtent.width == UINT32_MAX ==> WithinExtentBounds(extent, caps)
  {
    if caps.minImageExtent.width != UINT32_MAX then caps.currentExtent
    else ClampedFramebufferExtent(caps, framebufferWidth, framebufferHeight)
  }

  /**
   * On a surface whose size follows the swapchain (current extent
   * 0xFFFFFFFF, as on Wayland) the code as written returns the special
   * value itself as the swapchain extent, outside the surface's bounds.
   */
  lemma GetExtentAsWrittenReturnsSpecialValue()
    ensures var caps := SurfaceCapabilities(2, 8, Extent2D(UINT32_MAX, UINT32_MAX),
                                            Extent2D(1, 1), Extent2D(16384, 16384), Identity);
            ConsistentCapabilities(caps)
            && GetExtentAsWritten(caps, 1280, 720) == Extent2D(UINT32_MAX, UINT32_MAX)
            && !WithinExtentBounds(GetExtentAsWritten(caps, 1280, 720), caps)
  {
  }

  /** GetExtent as intended: the special value is looked for in the current extent. */
  function GetExtent(caps: SurfaceCapabilities, framebufferWidth: int, framebufferHeight: int): (extent: Extent2D)
    requires caps.currentExtent.width == UINT32_MAX ==> ExtentBoundsOrdered(caps)
    ensures caps.currentExtent.width != UINT32_MAX ==> extent == caps.currentExtent
    ensures caps.currentExtent.width == UINT32_MAX ==> WithinExtentBounds(extent, caps)
  {
    if caps.currentExtent.width != UINT32_MAX then caps.currentExtent
    else ClampedFramebufferExtent(caps, framebufferWidth, framebufferHeight)
  }

  /** On every surface the Vulkan specification allows, the corrected extent lies within the surface's bounds. */
  lemma GetExtentWithinBounds(caps: SurfaceCapabilities, framebufferWidth: int, framebufferHeight: int)
    requires ConsistentCapabilities(caps)
    ensures WithinExtentBounds(GetExtent(caps, framebufferWidth, framebufferHeight), caps)
    ensures GetExtent(caps, framebufferWidth, framebufferHeight).width != UINT32_MAX
            || caps.maxImageExtent.width == UINT32_MAX
  {
  }

  /**
   * The minimum image count CreateSwapchain asks for: one more than the
   * surface minimum, in uint32_t arithmetic, clamped to the maximum when
   * the surface has one (a maximum of 0 means unbounded).
   */
  function SwapchainImageCount(caps: SurfaceCapabilities): (count: Uint32)
    requires caps.maxImageCount > 0 ==> caps.minImageCount <= caps.maxImageCount
    ensures caps.maxImageCount > 0 ==> caps.minImageCount <= count <= caps.maxImageCount
    ensures caps.minImageCount < UINT32_MAX
            && (caps.maxImageCount == 0 || caps.minImageCount < caps.maxImageCount)
            ==> count == caps.minImageCount + 1
    ensures caps.maxImageCount > 0 && caps.minImageCount == caps.maxImageCount ==> count == caps.minImageCount
  {
    var wanted := ToUint32(caps.minImageCount + 1);
    if caps.maxImageCount > 0 then Clamp(wanted, caps.minImageCount, caps.maxImageCount)
    else wanted
  }

  /** With no maximum and the minimum at 0xFFFFFFFF, the uint32_t increment wraps and the engine asks for 0 images. */
  lemma SwapchainImageCountWraps()
    ensures SwapchainImageCount(SurfaceCapabilities(UINT32_MAX, 0, Extent2D(0, 0), Extent2D(0, 0), Extent2D(0, 0), Identity)) == 0
  {
  }

  /** How the swapchain images are shared between the graphics and the present queue family. */
  datatype ImageSharing = ImageSharing(mode: SharingMode, queueFamilyIndices: seq<nat>)

  /** The sharing setup of CreateSwapchain for a graphics and a present family. */
  function ImageSharingFor(graphics: nat, present: nat): (sharing: ImageSharing)
    ensures sharing.mode == Concurrent <==> graphics != present
  {
    if graphics != present then ImageSharing(Concurrent, [graphics, present])
    else ImageSharing(Exclusive, [])
  }

  /**
   * The Vulkan validity rule for VkSwapchainCreateInfoKHR's sharing: concurrent
   * sharing names at least two distinct families, exclusive sharing names none;
   * and every family that touches the images is able to.
   */
  predicate ValidSharingFor(sharing: ImageSharing, graphics: nat, present: nat) {
    && (sharing.mode == Concurrent ==>
          |sharing.queueFamilyIndices| >= 2
          && (forall i, j :: 0 <= i < j < |sharing.queueFamilyIndices| ==> sharing.queueFamilyIndices[i] != sharing.queueFamilyIndices[j])
          && graphics in sharing.queueFamilyIndices && present in sharing.queueFamilyIndices)
    && (sharing.mode == Exclusive ==> sharing.queueFamilyIndices == [] && graphics == present)
  }

  lemma ImageSharingIsValid(graphics: nat, present: nat)
    ensures ValidSharingFor(ImageSharingFor(graphics, present), graphics, present)
  {
  }

  datatype CompositeAlpha = Opaque | OtherCompositeAlpha(bit: nat)

  datatype ImageUsage = ColorAttachmentUsage | TransferSrcUsage | TransferDstUsage | SampledUsage

  /** VkSwapchainCreateInfoKHR as CreateSwapchain fills it; the surface handle is left out. */
  datatype SwapchainCreateInfo = SwapchainCreateInfo(
    minImageCount: Uint32,
    imageFormat: Format,
    imageColorSpace: ColorSpace,
    imageExtent: Extent2D,
    imageArrayLayers: nat,
    imageUsage: set<ImageUsage>,
    sharing: ImageSharing,
    preTransform: SurfaceTransform,
    compositeAlpha: CompositeAlpha,
    presentMode: PresentMode,
    clipped: bool,
    oldSwapchain: Handle)

  /**
   * The create info of CreateSwapchain.  The queue family indices are the
   * ones the logical device was created with (CreateLogicalDevice has
   * already thrown when either is missing).
   */
  method SwapchainCreateInfoFor(caps: SurfaceCapabilities, presentModes: seq<PresentMode>,
                                surfaceFormat: SurfaceFormat, extent: Extent2D,
                                graphics: nat, present: nat)
    returns (info: SwapchainCreateInfo)
    requires caps.maxImageCount > 0 ==> caps.minImageCount <= caps.maxImageCount
    ensures info.minImageCount == SwapchainImageCount(caps)
    ensures info.imageFormat == surfaceFormat.format && info.imageColorSpace == surfaceFormat.colorSpace
    ensures info.imageExtent == extent && info.imageArrayLayers == 1
    ensures info.imageUsage == {ColorAttachmentUsage}
    ensures info.sharing == ImageSharingFor(graphics, present) && ValidSharingFor(info.sharing, graphics, present)
    ensures info.preTransform == caps.currentTransform && info.compositeAlpha == Opaque
    ensures Mailbox in presentModes ==> info.presentMode == Mailbox
    ensures Mailbox !in presentModes && Fifo in presentModes ==> info.presentMode == Fifo
    ensures Mailbox !in presentModes && Fifo !in presentModes ==> info.presentMode == Immediate
    ensures info.presentMode == Mailbox || info.presentMode == Fifo || info.presentMode == Immediate
    ensures info.presentMode != Immediate ==> info.presentMode in presentModes
    ensures !info.clipped && info.oldSwapchain == NULL_HANDLE
  {
    var presentMode := GetPresentMode(presentModes);
    ImageSharingIsValid(graphics, present);
    info := SwapchainCreateInfo(
      SwapchainImageCount(caps), surfaceFormat.format, surfaceFormat.colorSpace, extent, 1,
      {ColorAttachmentUsage}, ImageSharingFor(graphics, present), caps.currentTransform,
      Opaque, presentMode, false, NULL_HANDLE);
  }

  /** Whether a format's properties offer all the wanted features under a tiling; other tilings never match. */
  predicate SupportsFeatures(properties: FormatProperties, tiling: ImageTiling, features: set<FormatFeature>) {
    (tiling == Linear && features <= properties.linearTilingFeatures)
    || (tiling == Optimal && features <= properties.optimalTilingFeatures)
  }

  /**
   * ChooseDepthFormat: the first candidate whose properties (queried from the
   * driver, a parameter here) offer the features under the tiling, else the
   * first candidate.
   */
  method ChooseDepthFormat(formatProperties: Format -> FormatProperties, formats: seq<Format>,
                           tiling: ImageTiling, features: set<FormatFeature>)
    returns (format: Format)
    requires |formats| > 0
    ensures format in formats
    ensures forall k :: 0 <= k < |formats| && SupportsFeatures(formatProperties(formats[k]), tiling, features)
              && (forall j :: 0 <= j < k ==> !SupportsFeatures(formatProperties(formats[j]), tiling, features))
              ==> format == formats[k]
    ensures (forall k :: 0 <= k < |formats| ==> !SupportsFeatures(formatProperties(formats[k]), tiling, features))
              ==> format == formats[0]
  {
    var i := 0;
    while i < |formats|
      invariant 0 <= i <= |formats|
      invariant forall j :: 0 <= j < i ==> !SupportsFeatures(formatProperties(formats[j]), tiling, features)
    {
      var properties := formatProperties(formats[i]);
      if tiling == Linear && features <= properties.linearTilingFeatures {
        return formats[i];
      } else if tiling == Optimal && features <= properties.optimalTilingFeatures {
        return formats[i];
      }
      i := i + 1;
    }
    format := formats[0];
  }

  /** GetDepthFormat: 32-bit float depth if it can be a depth attachment, else 24-bit depth with stencil, else 32-bit float. */
  method GetDepthFormat(formatProperties: Format -> FormatProperties, tiling: ImageTiling) returns (format: Format)
    ensures SupportsFeatures(formatProperties(D32Sfloat), tiling, {DepthStencilAttachment}) ==> format == D32Sfloat
    ensures !SupportsFeatures(formatProperties(D32Sfloat), tiling, {DepthStencilAttachment})
            && SupportsFeatures(formatProperties(D24UnormS8Uint), tiling, {DepthStencilAttachment})
            ==> format == D24UnormS8Uint
    ensures !SupportsFeatures(formatProperties(D32Sfloat), tiling, {DepthStencilAttachment})
            && !SupportsFeatures(formatProperties(D24UnormS8Uint), tiling, {DepthStencilAttachment})
            ==> format == D32Sfloat
  {
    var candidates := [D32Sfloat, D24UnormS8Uint];
    format := ChooseDepthFormat(formatProperties, candidates, tiling, {DepthStencilAttachment});
    assert candidates[0] == D32Sfloat && candidates[1] == D24UnormS8Uint;
  }

  /** VkSampleCountFlags: bit 2^k set when 2^k samples per pixel are supported. */
  type SampleCountFlags = bv32

  /** The sample counts GetMsaaSampleCounts tries, from 64 down to 2; 1 sample is the fallback. */
  predicate IsSampleCountCandidate(bit: bv32) {
    bit == 64 || bit == 32 || bit == 16 || bit == 8 || bit == 4 || bit == 2
  }

  /** The highest of 64, 32, ..., 2 whose bit is set in the mask, else 1. */
  function HighestSampleCount(counts: SampleCountFlags): (samples: bv32)
    ensures samples == 1 || (IsSampleCountCandidate(samples) && counts & samples != 0)
    ensures forall bit :: IsSampleCountCandidate(bit) && counts & bit != 0 ==> bit <= samples
  {
    if counts & 64 != 0 then 64
    else if counts & 32 != 0 then 32
    else if counts & 16 != 0 then 16
    else if counts & 8 != 0 then 8
    else if counts & 4 != 0 then 4
    else if counts & 2 != 0 then 2
    else 1
  }

  /** GetMsaaSampleCounts as written: std::min of the colour and depth masks, compared as numbers. */
  function GetMsaaSampleCountsAsWritten(colorCounts: SampleCountFlags, depthCounts: SampleCountFlags): (samples: bv32)
    ensures var lesser := if depthCounts < colorCounts then depthCounts else colorCounts;
            samples == 1 || (IsSampleCountCandidate(samples) && lesser & samples != 0)
  {
    HighestSampleCount(if depthCounts < colorCounts then depthCounts else colorCounts)
  }

  /**
   * Colour images that support 1 and 4 samples (mask 5) and depth images
   * that support 1 and 2 (mask 3): the numerically smaller mask is the depth
   * one, so the code picks 2 samples, which colour images do not support.
   */
  lemma GetMsaaSampleCountsAsWrittenUnsupported()
    ensures GetMsaaSampleCountsAsWritten(5, 3) == 2
    ensures 5 & GetMsaaSampleCountsAsWritten(5, 3) == 0
  {
  }

  /** A single sample-count bit is set in the common part exactly when it is set in both masks. */
  lemma CommonSampleCount(colorCounts: SampleCountFlags, depthCounts: SampleCountFlags, bit: bv32)
    requires IsSampleCountCandidate(bit)
    ensures (colorCounts & depthCounts) & bit != 0 <==> colorCounts & bit != 0 && depthCounts & bit != 0
  {
  }

  /** The highest count in the common part of the masks is one both masks have, and no higher count is in both. */
  lemma HighestCommonSampleCount(colorCounts: SampleCountFlags, depthCounts: SampleCountFlags)
    ensures var samples := HighestSampleCount(colorCounts & depthCounts);
            samples != 1 ==> colorCounts & samples != 0 && depthCounts & samples != 0
    ensures forall bit :: IsSampleCountCandidate(bit) && colorCounts & bit != 0 && depthCounts & bit != 0
              ==> bit <= HighestSampleCount(colorCounts & depthCounts)
  {
    var samples := HighestSampleCount(colorCounts & depthCounts);
    if samples != 1 {
      CommonSampleCount(colorCounts, depthCounts, samples);
    }
    forall bit | IsSampleCountCandidate(bit) && colorCounts & bit != 0 && depthCounts & bit != 0
      ensures bit <= samples
    {
      CommonSampleCount(colorCounts, depthCounts, bit);
    }
  }

  /** GetMsaaSampleCounts as intended: the highest count both colour and depth images support. */
  function GetMsaaSampleCounts(colorCounts: SampleCountFlags, depthCounts: SampleCountFlags): (samples: bv32)
    ensures samples == 1 || (IsSampleCountCandidate(samples) && colorCounts & samples != 0 && depthCounts & samples != 0)
    ensures forall bit :: IsSampleCountCandidate(bit) && colorCounts & bit != 0 && depthCounts & bit != 0
              ==> bit <= samples
  {
    HighestCommonSampleCount(colorCounts, depthCounts);
    HighestSampleCount(colorCounts & depthCounts)
  }

  /** The mask of the counts 1, 2, ..., 2^(n-1): what drivers report in practice. */
  function PrefixMask(n: bv32): bv32
    requires n <= 7
  {
    (1 << n) - 1
  }

  /**
   * On masks of the form 1 | 2 | ... | 2^(n-1) the numeric minimum is the
   * common part, so the code as written and the corrected one agree there.
   */
  lemma MsaaAgreesOnPrefixMasks(a: bv32, b: bv32)
    requires a <= 7 && b <= 7
    ensures GetMsaaSampleCountsAsWritten(PrefixMask(a), PrefixMask(b)) == GetMsaaSampleCounts(PrefixMask(a), PrefixMask(b))
  {
  }
}
