/** The static table mapping DRM fourcc codes to native formats and their
    per-plane memory layout, and lookup in it. */
module PixelFormat {
  import opened Common
  import opened Vk

  /** One plane of a format: bits per block and the subsampling factors.
      A row of the plane holds `width / hsub` blocks of `bpb / 8` bytes. */
  datatype FormatPlane = FormatPlane(bpb: nat, hsub: nat, vsub: nat)

  /** A format descriptor; `planes` holds exactly `plane_count` planes. */
  datatype Format = Format(
    drmFormat: u32,
    vkFormat: VkFormat,
    hasAlpha: bool,
    ycbcr: bool,
    planes: seq<FormatPlane>)

  predicate ValidPlane(p: FormatPlane) {
    && p.bpb > 0 && p.bpb % 8 == 0
    && p.hsub in {1, 2}
    && p.vsub in {1, 2}
  }

  /** The shape every table entry has: 1 to 3 planes, each well formed, and
      never more planes than the fixed per-plane arrays can hold. */
  predicate ValidFormat(f: Format) {
    && 1 <= |f.planes| <= 3
    && |f.planes| <= MAX_PLANES
    && forall i :: 0 <= i < |f.planes| ==> ValidPlane(f.planes[i])
  }

  /** Blocks in one row of a plane of the given pixel width. */
  function BlocksPerRow(p: FormatPlane, width: nat): nat
    requires p.hsub > 0
  {
    width / p.hsub
  }

  /** Bytes in one block of a plane. */
  function BytesPerBlock(p: FormatPlane): nat {
    p.bpb / 8
  }

  const Single32: seq<FormatPlane> := [FormatPlane(32, 1, 1)]

  /** The table, in source order. */
  const Formats: seq<Format> := [
    Format(DRM_FORMAT_ARGB8888, B8G8R8A8_Srgb, true, false, Single32),
    Format(DRM_FORMAT_XRGB8888, B8G8R8A8_Srgb, false, false, Single32),
    Format(DRM_FORMAT_XBGR8888, R8G8B8A8_Srgb, false, false, Single32),
    Format(DRM_FORMAT_ABGR8888, R8G8B8A8_Srgb, true, false, Single32),
    Format(DRM_FORMAT_YUYV, B8G8R8G8_422_Unorm, false, true, [FormatPlane(32, 2, 1)]),
    Format(DRM_FORMAT_UYVY, G8B8G8R8_422_Unorm, false, true, [FormatPlane(32, 2, 1)]),
    Format(DRM_FORMAT_NV12, G8_B8R8_2Plane_420_Unorm, false, true,
      [FormatPlane(8, 1, 1), FormatPlane(16, 2, 2)]),
    Format(DRM_FORMAT_NV16, G8_B8R8_2Plane_422_Unorm, false, true,
      [FormatPlane(8, 1, 1), FormatPlane(16, 2, 1)]),
    Format(DRM_FORMAT_YUV420, G8_B8_R8_3Plane_420_Unorm, false, true,
      [FormatPlane(8, 1, 1), FormatPlane(8, 2, 2), FormatPlane(8, 2, 2)]),
    Format(DRM_FORMAT_YUV422, G8_B8_R8_3Plane_422_Unorm, false, true,
      [FormatPlane(8, 1, 1), FormatPlane(8, 2, 1), FormatPlane(8, 2, 1)]),
    Format(DRM_FORMAT_YUV444, G8_B8_R8_3Plane_444_Unorm, false, true,
      [FormatPlane(8, 1, 1), FormatPlane(8, 1, 1), FormatPlane(8, 1, 1)])
  ]

  /** The alpha-carrying codes of the table. */
  predicate AlphaCode(drm: u32) {
    drm == DRM_FORMAT_ARGB8888 || drm == DRM_FORMAT_ABGR8888
  }

  /** The Y'CbCr codes of the table (packed 4:2:2, NV and planar YUV). */
  predicate YcbcrCode(drm: u32) {
    drm in {DRM_FORMAT_YUYV, DRM_FORMAT_UYVY, DRM_FORMAT_NV12, DRM_FORMAT_NV16,
            DRM_FORMAT_YUV420, DRM_FORMAT_YUV422, DRM_FORMAT_YUV444}
  }

  /** Shape of the static table: eleven entries, pairwise distinct codes, all
      entries well formed, alpha only on ARGB/ABGR and Y'CbCr exactly on the
      YUV family. */
  lemma FormatTableShape()
    ensures |Formats| == 11
    ensures forall i, j :: 0 <= i < j < |Formats| ==> Formats[i].drmFormat != Formats[j].drmFormat
    ensures forall i :: 0 <= i < |Formats| ==> ValidFormat(Formats[i])
    ensures forall i :: 0 <= i < |Formats| ==> (Formats[i].hasAlpha <==> AlphaCode(Formats[i].drmFormat))
    ensures forall i :: 0 <= i < |Formats| ==> (Formats[i].ycbcr <==> YcbcrCode(Formats[i].drmFormat))
  {
  }

  /** In every table plane the vertical subsampling divides the horizontal one. */
  lemma TableVsubDividesHsub()
    ensures forall i, k :: 0 <= i < |Formats| && 0 <= k < |Formats[i].planes| ==>
      Formats[i].planes[k].hsub % Formats[i].planes[k].vsub == 0
  {
  }

  /** `vulkan_get_format_list`: the table and its length. */
  function GetFormatList(): (r: (seq<Format>, nat))
    ensures r.1 == |r.0| == 11
    ensures forall f :: f in r.0 ==> ValidFormat(f)
  {
    FormatTableShape();
    (Formats, |Formats|)
  }

  /** `vulkan_get_format_from_drm`: a linear scan of the table returning the
      entry with the requested code, or nothing. */
  method GetFormatFromDrm(drm: u32) returns (r: Option<Format>)
    ensures r.Some? ==> r.value in Formats && r.value.drmFormat == drm
    ensures r.None? <==> forall i :: 0 <= i < |Formats| ==> Formats[i].drmFormat != drm
    ensures r.Some? ==> forall i :: 0 <= i < |Formats| && Formats[i].drmFormat == drm ==> r.value == Formats[i]
  {
    FormatTableShape();
    var i := 0;
    while i < |Formats|
      invariant 0 <= i <= |Formats|
      invariant forall k :: 0 <= k < i ==> Formats[k].drmFormat != drm
    {
      if Formats[i].drmFormat == drm {
        return Some(Formats[i]);
      }
      i := i + 1;
    }
    return None;
  }
}
