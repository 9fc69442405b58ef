/** Creation of textures: the validation and memory import of a dmabuf, the
    dmabuf texture built on it, and the texture filled from pixel data.
    Every native call is an answer supplied by the caller; a failure after
    the texture record exists hands the record to `Destroy`. */
module TextureCreate {
  import opened Common
  import opened Vk
  import opened PixelFormat
  import opened FormatProps
  import opened Memory
  import opened TextureState
  import opened TextureUpload

  /** `wlr_dmabuf_attributes` without the per-plane descriptors, offsets and
      strides, which the model passes on unexamined. */
  datatype DmabufAttributes = DmabufAttributes(
    width: u32,
    height: u32,
    format: u32,
    modifier: u64,
    nPlanes: nat,
    flags: Flags)

  /** Why an import stopped. */
  datatype ImportError =
    | UnsupportedFormat
    | UnsupportedModifier
    | TooLarge
    | PlaneCountMismatch
    | DisjointUnsupported
    | ImageCreateFailed
    | FdPropertiesFailed
    | NoMemoryType
    | DupFailed
    | AllocateFailed
    | BindFailed

  /** The checks made before any device object is created. */
  predicate IsValidationError(e: ImportError) {
    e in {UnsupportedFormat, UnsupportedModifier, TooLarge, PlaneCountMismatch, DisjointUnsupported}
  }

  /** The per-memory steps of the import loop. */
  predicate IsMemoryError(e: ImportError) {
    e in {FdPropertiesFailed, NoMemoryType, DupFailed, AllocateFailed}
  }

  datatype Validation =
    | Rejected(reason: ImportError)
    | Accepted(fmt: FormatProps, mod: ModifierProps)

  /** The modifier entry an import of `a` would use, when the format is known
      and its list has one. */
  function ImportModifier(props: seq<FormatProps>, a: DmabufAttributes, forRender: bool): Option<ModifierProps> {
    match FormatPropsFromDrm(props, a.format)
    case None => None
    case Some(fmt) => FindModifier(fmt, a.modifier, forRender)
  }

  /** The checks at the start of `vulkan_import_dmabuf`, in source order: a
      known format, a modifier advertised for the usage and importable, a
      size within the modifier's maximum extent, the modifier's plane count,
      and support for disjoint images when there is more than one plane. */
  function ValidateImport(props: seq<FormatProps>, a: DmabufAttributes, forRender: bool): (v: Validation)
    ensures v.Rejected? ==> IsValidationError(v.reason)
    ensures v == Rejected(UnsupportedFormat) <==>
      forall i :: 0 <= i < |props| ==> props[i].format.drmFormat != a.format
    ensures v == Rejected(UnsupportedModifier) <==>
      || (FormatPropsFromDrm(props, a.format).Some? && ImportModifier(props, a, forRender).None?)
      || (ImportModifier(props, a, forRender).Some?
          && !Intersects(ImportModifier(props, a, forRender).value.dmabufFlags, EXTERNAL_MEMORY_FEATURE_IMPORTABLE))
    ensures v == Rejected(TooLarge) <==>
      && ImportModifier(props, a, forRender).Some?
      && var m := ImportModifier(props, a, forRender).value;
      && Intersects(m.dmabufFlags, EXTERNAL_MEMORY_FEATURE_IMPORTABLE)
      && (a.width > m.maxExtent.width || a.height > m.maxExtent.height)
    ensures v == Rejected(PlaneCountMismatch) <==>
      && ImportModifier(props, a, forRender).Some?
      && var m := ImportModifier(props, a, forRender).value;
      && Intersects(m.dmabufFlags, EXTERNAL_MEMORY_FEATURE_IMPORTABLE)
      && a.width <= m.maxExtent.width && a.height <= m.maxExtent.height
      && m.props.planeCount != a.nPlanes
    ensures v == Rejected(DisjointUnsupported) <==>
      && ImportModifier(props, a, forRender).Some?
      && var m := ImportModifier(props, a, forRender).value;
      && Intersects(m.dmabufFlags, EXTERNAL_MEMORY_FEATURE_IMPORTABLE)
      && a.width <= m.maxExtent.width && a.height <= m.maxExtent.height
      && m.props.planeCount == a.nPlanes
      && a.nPlanes > 1 && !Intersects(m.props.tilingFeatures, FORMAT_FEATURE_DISJOINT)
    ensures v.Accepted? <==>
      && ImportModifier(props, a, forRender).Some?
      && var m := ImportModifier(props, a, forRender).value;
      && Intersects(m.dmabufFlags, EXTERNAL_MEMORY_FEATURE_IMPORTABLE)
      && a.width <= m.maxExtent.width && a.height <= m.maxExtent.height
      && m.props.planeCount == a.nPlanes
      && (a.nPlanes > 1 ==> Intersects(m.props.tilingFeatures, FORMAT_FEATURE_DISJOINT))
    ensures v.Accepted? ==>
      && v.fmt == FormatPropsFromDrm(props, a.format).value
      && v.mod == ImportModifier(props, a, forRender).value
      && v.fmt in props && v.fmt.format.drmFormat == a.format
      && v.mod in ModifierList(v.fmt, forRender) && v.mod.props.modifier == a.modifier
  {
    match FormatPropsFromDrm(props, a.format)
    case None => Rejected(UnsupportedFormat)
    case Some(fmt) =>
      match FindModifier(fmt, a.modifier, forRender)
      case None => Rejected(UnsupportedModifier)
      case Some(mod) =>
        if !Intersects(mod.dmabufFlags, EXTERNAL_MEMORY_FEATURE_IMPORTABLE) then Rejected(UnsupportedModifier)
        else if a.width > mod.maxExtent.width || a.height > mod.maxExtent.height then Rejected(TooLarge)
        else if mod.props.planeCount != a.nPlanes then Rejected(PlaneCountMismatch)
        else if a.nPlanes > 1 && !Intersects(mod.props.tilingFeatures, FORMAT_FEATURE_DISJOINT) then
          Rejected(DisjointUnsupported)
        else Accepted(fmt, mod)
  }

  /** A dmabuf whose modifier the device does not list for the usage is never
      imported, whatever else it carries. */
  lemma UnlistedModifierRejected(props: seq<FormatProps>, a: DmabufAttributes, forRender: bool, fmt: FormatProps)
    requires FormatPropsFromDrm(props, a.format) == Some(fmt)
    requires forall i :: 0 <= i < |ModifierList(fmt, forRender)| ==>
      ModifierList(fmt, forRender)[i].props.modifier != a.modifier
    ensures ValidateImport(props, a, forRender) == Rejected(UnsupportedModifier)
  {
  }

  /** The device's answers for one memory of the import: the fd-properties
      query and the memory types it allows, the memory types the image
      allows, and whether duplicating the fd and allocating succeed. */
  datatype MemoryAnswer = MemoryAnswer(
    fdPropsOk: bool,
    fdTypeBits: bv32,
    imageTypeBits: bv32,
    dupOk: bool,
    allocOk: bool)

  /** Everything an import asks the device, in call order. */
  datatype ImportEnv = ImportEnv(
    createImageOk: bool,
    memoryTypes: seq<Flags>,
    memory: nat -> MemoryAnswer,
    bindOk: bool)

  /** The first failing step for one memory, if any: the fd query, a memory
      type allowed by both the image and the fd, the fd duplicate, the
      allocation. */
  function MemoryFailure(types: seq<Flags>, ans: MemoryAnswer): Option<ImportError> {
    if !ans.fdPropsOk then Some(FdPropertiesFailed)
    else if ImportMemType(types, ans) < 0 then Some(NoMemoryType)
    else if !ans.dupOk then Some(DupFailed)
    else if !ans.allocOk then Some(AllocateFailed)
    else None
  }

  /** Number of memories imported: one per plane for a disjoint image,
      otherwise one. */
  function MemCount(a: DmabufAttributes): nat {
    if a.nPlanes > 1 then a.nPlanes else 1
  }

  /** `mem_plane_aspect`: the memory-plane aspect of memory `i`; the source
      treats any other index as unreachable. */
  function MemPlaneAspect(i: nat): (a: Flags)
    requires i < MAX_PLANES
    ensures a == IMAGE_ASPECT_MEMORY_PLANE_0 << i
  {
    if i == 0 then IMAGE_ASPECT_MEMORY_PLANE_0
    else if i == 1 then IMAGE_ASPECT_MEMORY_PLANE_1
    else if i == 2 then IMAGE_ASPECT_MEMORY_PLANE_2
    else IMAGE_ASPECT_MEMORY_PLANE_3
  }

  /** How one imported memory is bound: its memory type and, for a disjoint
      image, the plane aspect it backs. */
  datatype MemoryBind = MemoryBind(memoryType: nat, planeAspect: Option<Flags>)

  datatype ImportResult =
    | ImportFailed(reason: ImportError)
    | Imported(disjoint: bool, binds: seq<MemoryBind>)

  /** The result of an import, the number of memories it allocated (the
      count reported back through `n_mems`), and how many of them it freed
      again on its error path. */
  datatype ImportOutcome = ImportOutcome(result: ImportResult, nMems: nat, freed: nat)

  /** The import succeeds: validation passes and every device call in the
      chain succeeds for every memory. */
  predicate ImportSucceeds(props: seq<FormatProps>, a: DmabufAttributes, forRender: bool, env: ImportEnv) {
    && ValidateImport(props, a, forRender).Accepted?
    && env.createImageOk
    && MemoriesOk(env, MemCount(a))
    && env.bindOk
  }

  /** Memory `k` is bound to a type that both the image and its fd allow,
      and, for a disjoint image, backs memory plane `k`. */
  predicate BindFits(env: ImportEnv, disjoint: bool, k: nat, b: MemoryBind) {
    var ans := env.memory(k);
    && b.memoryType < |env.memoryTypes| && b.memoryType < MAX_MEMORY_TYPES
    && TypeAllowed(ans.imageTypeBits, b.memoryType) && TypeAllowed(ans.fdTypeBits, b.memoryType)
    && (disjoint ==> k < MAX_PLANES && b.planeAspect == Some(MemPlaneAspect(k)))
    && (!disjoint ==> b.planeAspect.None?)
  }

  /** The first `n` memories pass every step. */
  predicate MemoriesOk(env: ImportEnv, n: nat) {
    n == 0 || (MemoriesOk(env, n - 1) && MemoryFailure(env.memoryTypes, env.memory(n - 1)).None?)
  }

  lemma {:induction false} MemoriesOkIff(env: ImportEnv, n: nat)
    ensures MemoriesOk(env, n) <==> forall k :: 0 <= k < n ==> MemoryFailure(env.memoryTypes, env.memory(k)).None?
  {
    if n > 0 {
      MemoriesOkIff(env, n - 1);
    }
  }

  /** The memory type an import binds memory to: the lowest type that both
      the image's and the fd's requirement words allow, or -1. */
  function ImportMemType(types: seq<Flags>, ans: MemoryAnswer): (m: int)
    ensures m == FindMemType(types, 0, ans.imageTypeBits & ans.fdTypeBits)
    ensures m >= 0 ==>
      && m < |types| && m < MAX_MEMORY_TYPES
      && TypeAllowed(ans.imageTypeBits, m) && TypeAllowed(ans.fdTypeBits, m)
  {
    var m := FindMemType(types, 0, ans.imageTypeBits & ans.fdTypeBits);
    if m >= 0 then AllowedByBoth(ans.imageTypeBits, ans.fdTypeBits, m); m else m
  }

  /** One iteration of the memory loop of `vulkan_import_dmabuf`, for memory
      `n`: the fd query, the lowest memory type allowed by both the image
      and the fd, the fd duplicate and the allocation, stopping at the first
      failing step. */
  method ImportMemory(env: ImportEnv, n: nat, disjoint: bool) returns (b: MemoryBind, failure: Option<ImportError>)
    requires disjoint ==> n < MAX_PLANES
    ensures failure == MemoryFailure(env.memoryTypes, env.memory(n))
    ensures failure.None? ==> BindFits(env, disjoint, n, b)
  {
    var ans := env.memory(n);
    b := MemoryBind(0, None);
    if !ans.fdPropsOk {
      return b, Some(FdPropertiesFailed);
    }
    var mem := ImportMemType(env.memoryTypes, ans);
    if mem < 0 {
      return b, Some(NoMemoryType);
    }
    if !ans.dupOk {
      return b, Some(DupFailed);
    }
    if !ans.allocOk {
      return b, Some(AllocateFailed);
    }
    var aspect := if disjoint then Some(MemPlaneAspect(n)) else None;
    return MemoryBind(mem, aspect), None;
  }

  /** The loop of `vulkan_import_dmabuf` over the memories. It stops at the
      first memory that fails a step; `binds` holds the memories allocated
      before it. */
  method ImportMemories(env: ImportEnv, count: nat, disjoint: bool)
    returns (binds: seq<MemoryBind>, failure: Option<ImportError>)
    requires disjoint ==> count <= MAX_PLANES
    ensures failure.None? <==> MemoriesOk(env, count)
    ensures failure.None? ==> |binds| == count
    ensures failure.Some? ==>
      |binds| < count && MemoryFailure(env.memoryTypes, env.memory(|binds|)) == failure
    ensures MemoriesOk(env, |binds|)
    ensures forall k :: 0 <= k < |binds| ==> BindFits(env, disjoint, k, binds[k])
  {
    binds := [];
    var n := 0;
    while n < count
      invariant n <= count && |binds| == n
      invariant MemoriesOk(env, n)
      invariant forall k :: 0 <= k < n ==> BindFits(env, disjoint, k, binds[k])
    {
      var b, f := ImportMemory(env, n, disjoint);
      if f.Some? {
        FailureStops(env, n, count);
        return binds, f;
      }
      binds := binds + [b];
      n := n + 1;
    }
    failure := None;
  }

  /** A failing memory spoils every longer prefix. */
  lemma {:induction false} FailureStops(env: ImportEnv, n: nat, count: nat)
    requires n < count && MemoryFailure(env.memoryTypes, env.memory(n)).Some?
    ensures !MemoriesOk(env, count)
    decreases count
  {
    if count > n + 1 {
      FailureStops(env, n, count - 1);
    }
  }

  /** `vulkan_import_dmabuf`: validation, image creation, the memories, then
      one bind of all memories. On any failure after the image exists every
      memory allocated so far is freed, yet the count of allocations is
      still reported. The source asserts that a known format comes with
      fewer than `WLR_DMABUF_MAX_PLANES` planes. */
  method ImportDmabuf(props: seq<FormatProps>, a: DmabufAttributes, forRender: bool, env: ImportEnv)
    returns (out: ImportOutcome)
    requires FormatPropsFromDrm(props, a.format).Some? ==> a.nPlanes < MAX_PLANES
    ensures out.result.Imported? <==> ImportSucceeds(props, a, forRender, env)
    ensures ValidateImport(props, a, forRender).Rejected? ==>
      out.result == ImportFailed(ValidateImport(props, a, forRender).reason) && out.nMems == 0
    ensures out.result == ImportFailed(ImageCreateFailed) ==>
      ValidateImport(props, a, forRender).Accepted? && !env.createImageOk && out.nMems == 0
    ensures out.result.ImportFailed? && IsMemoryError(out.result.reason) ==>
      && ValidateImport(props, a, forRender).Accepted? && env.createImageOk
      && out.nMems < MemCount(a)
      && MemoryFailure(env.memoryTypes, env.memory(out.nMems)) == Some(out.result.reason)
      && MemoriesOk(env, out.nMems)
    ensures out.result == ImportFailed(BindFailed) ==> out.nMems == MemCount(a) && !env.bindOk
    ensures out.result.ImportFailed? ==> out.freed == out.nMems
    ensures out.result.Imported? ==>
      && out.freed == 0 && out.nMems == MemCount(a)
      && out.result.disjoint == (a.nPlanes > 1)
      && |out.result.binds| == out.nMems
      && forall k :: 0 <= k < out.nMems ==> BindFits(env, a.nPlanes > 1, k, out.result.binds[k])
  {
    var v := ValidateImport(props, a, forRender);
    if v.Rejected? {
      return ImportOutcome(ImportFailed(v.reason), 0, 0);
    }
    if !env.createImageOk {
      return ImportOutcome(ImportFailed(ImageCreateFailed), 0, 0);
    }
    var disjoint := a.nPlanes > 1;
    var binds, failure := ImportMemories(env, MemCount(a), disjoint);
    if failure.Some? {
      return ImportOutcome(ImportFailed(failure.value), |binds|, |binds|);
    }
    if !env.bindOk {
      return ImportOutcome(ImportFailed(BindFailed), |binds|, |binds|);
    }
    return ImportOutcome(Imported(disjoint, binds), |binds|, 0);
  }

  /** A type allowed by the intersection of two requirement words is allowed
      by each of them. */
  lemma AllowedByBoth(x: bv32, y: bv32, i: nat)
    requires i < MAX_MEMORY_TYPES && TypeAllowed(x & y, i)
    ensures TypeAllowed(x, i) && TypeAllowed(y, i)
  {
  }

  /** Callers' answers for the steps of texture creation outside the import. */
  datatype CreateEnv = CreateEnv(callocOk: bool, viewOk: bool, dsOk: bool)

  /** Outcome of creating a texture: nothing was allocated, a texture record
      was built and destroyed again (with what destruction did), or the new
      texture. */
  datatype Created =
    | NoTexture
    | Abandoned(record: Texture, release: Release)
    | Made(texture: Texture)

  /** `vulkan_texture_from_dmabuf`: a texture of the dmabuf's size and format
      around an imported image, with a view and a descriptor set. The
      Y-invert flag sets `invert_y`; other flags are only reported, never
      fatal. Any failure after the record exists destroys it; the memory
      count it holds then is the number of allocations the import made. */
  method TextureFromDmabuf(r: Renderer, id: nat, props: seq<FormatProps>, a: DmabufAttributes,
                           importEnv: ImportEnv, env: CreateEnv)
    returns (res: Created, r': Renderer)
    requires FormatPropsFromDrm(props, a.format).Some? ==> a.nPlanes < MAX_PLANES
    requires !Queued(r, id)
    ensures res.NoTexture? <==> FormatPropsFromDrm(props, a.format).None? || !env.callocOk
    ensures res.NoTexture? ==> r' == r
    ensures res.Made? <==>
      && FormatPropsFromDrm(props, a.format).Some? && env.callocOk
      && ImportSucceeds(props, a, false, importEnv) && env.viewOk && env.dsOk
    ensures res.Made? ==>
      && r' == r
      && res.texture.id == id && res.texture.width == a.width && res.texture.height == a.height
      && res.texture.format == FormatPropsFromDrm(props, a.format).value.format
      && res.texture.hasRenderer && res.texture.hasDescriptor && res.texture.dmabufImported
      && res.texture.memCount == MemCount(a) && res.texture.lastUsed == 0
      && res.texture.invertY == Intersects(a.flags, DMABUF_FLAG_Y_INVERT)
    ensures res.Abandoned? ==>
      && !res.record.dmabufImported && !res.record.hasDescriptor && res.record.lastUsed == 0
      && (ImportSucceeds(props, a, false, importEnv) ==> res.record.memCount == MemCount(a))
      && (res.release.Deferred? <==> r.frame == 0)
      && (res.release.Released? ==> res.release.memoriesFreed == res.record.memCount)
      && (res.release.Deferred? ==> Queued(r', id))
      && (!res.release.Deferred? ==> r' == r)
  {
    var fmt := FormatPropsFromDrm(props, a.format);
    if fmt.None? || !env.callocOk {
      return NoTexture, r;
    }
    var t := NewTexture(id, a.width, a.height, fmt.value.format);
    var out := ImportDmabuf(props, a, false, importEnv);
    t := t.(memCount := out.nMems);
    if out.result.ImportFailed? {
      var d := Destroy(r, t);
      return Abandoned(t, d.1), d.0;
    }
    t := t.(invertY := Intersects(a.flags, DMABUF_FLAG_Y_INVERT));
    if !env.viewOk || !env.dsOk {
      var d := Destroy(r, t);
      return Abandoned(t, d.1), d.0;
    }
    t := t.(hasDescriptor := true, dmabufImported := true);
    return Made(t), r;
  }

  /** Callers' answers for `vulkan_texture_from_pixels`: allocation of the
      record, image creation, the device's memory types and the image's
      requirement word, allocation and binding of its memory, view and
      descriptor set creation, and the staging span and its mapping. */
  datatype PixelsEnv = PixelsEnv(
    callocOk: bool,
    createImageOk: bool,
    memoryTypes: seq<Flags>,
    imageTypeBits: bv32,
    allocOk: bool,
    bindOk: bool,
    viewOk: bool,
    dsOk: bool,
    span: BufferSpan,
    mapOk: bool)

  /** The whole texture is the upload rectangle of a pixels texture. */
  function FullRect(stride: nat, width: nat, height: nat): (u: Rect)
    ensures InsideTexture(u, width, height)
  {
    Rect(stride, width, height, 0, 0, 0, 0)
  }

  /** Every format the device records is one of the table's shapes. */
  predicate TablesWellFormed(props: seq<FormatProps>) {
    forall i :: 0 <= i < |props| ==> ValidFormat(props[i].format)
  }

  lemma WellFormedSubsampled(props: seq<FormatProps>, f: FormatProps)
    requires TablesWellFormed(props) && f in props
    ensures Subsampled(f.format.planes) && |f.format.planes| <= 3
  {
    var i :| 0 <= i < |props| && props[i] == f;
    assert ValidFormat(props[i].format);
  }

  /** What `write_pixels` asks of the caller when the whole texture is
      uploaded: the size is a multiple of the subsampling factors and the
      data holds every row. */
  predicate PixelsFit(props: seq<FormatProps>, drm: u32, stride: nat, width: nat, height: nat, data: seq<byte>) {
    var f := FormatPropsFromDrm(props, drm);
    f.Some? && Subsampled(f.value.format.planes) ==>
      && Aligned(f.value.format.planes, FullRect(stride, width, height))
      && SourceCovers(data, f.value.format.planes, FullRect(stride, width, height))
  }

  /** `vulkan_texture_from_pixels`: a texture of the given size in optimal
      tiling, one memory, a view and a descriptor set, and the whole of
      `data` uploaded. Any failure after the record exists destroys it.
      `memIndex` is the memory type index the allocation asks for, computed
      as written (see `Memory.PixelsMemoryIndexAsWritten`); it is nothing
      when no allocation is made. */
  method TextureFromPixels(r: Renderer, id: nat, props: seq<FormatProps>, drm: u32,
                           stride: nat, width: u32, height: u32, data: seq<byte>, env: PixelsEnv)
    returns (res: Created, r': Renderer, memIndex: Option<bv32>, upload: WriteResult)
    requires TablesWellFormed(props)
    requires PixelsFit(props, drm, stride, width, height, data)
    requires !Queued(r, id)
    ensures res.NoTexture? <==> FormatPropsFromDrm(props, drm).None? || !env.callocOk
    ensures res.NoTexture? ==> r' == r
    ensures memIndex.Some? <==> FormatPropsFromDrm(props, drm).Some? && env.callocOk && env.createImageOk
    ensures memIndex.Some? ==> memIndex.value == PixelsMemoryIndexAsWritten(env.memoryTypes, env.imageTypeBits)
    ensures res.Made? <==>
      && FormatPropsFromDrm(props, drm).Some? && env.callocOk && env.createImageOk
      && env.allocOk && env.bindOk && env.viewOk && env.dsOk
      && env.span.buffer.Some? && env.mapOk
      && env.span.alloc.size == StagingSize(FormatPropsFromDrm(props, drm).value.format.planes, width, height)
    ensures res.Made? ==>
      && r' == r && memIndex.Some?
      && res.texture.id == id && res.texture.width == width && res.texture.height == height
      && res.texture.format == FormatPropsFromDrm(props, drm).value.format
      && res.texture.hasRenderer && res.texture.hasDescriptor && !res.texture.dmabufImported
      && res.texture.memCount == 1 && res.texture.lastUsed == r.frame
      && upload.Written?
      && upload.staging == Staged(data, res.texture.format.planes, FullRect(stride, width, height), |res.texture.format.planes|)
    ensures res.Abandoned? ==>
      && res.record.lastUsed == 0 && res.record.memCount <= 1
      && (res.record.memCount == 1 <==> memIndex.Some? && env.allocOk)
      && (res.record.hasDescriptor ==> res.record.memCount == 1 && upload.WriteFailed?)
      && (res.release.Deferred? <==> r.frame == 0)
      && (res.release.Released? ==> res.release.memoriesFreed == res.record.memCount)
      && (res.release.Deferred? ==> Queued(r', id))
      && (!res.release.Deferred? ==> r' == r)
  {
    memIndex := None;
    upload := WriteFailed;
    var fmt := FormatPropsFromDrm(props, drm);
    if fmt.None? || !env.callocOk {
      return NoTexture, r, memIndex, upload;
    }
    var t := NewTexture(id, width, height, fmt.value.format);
    if !env.createImageOk {
      var d := Destroy(r, t);
      return Abandoned(t, d.1), d.0, memIndex, upload;
    }
    memIndex := Some(PixelsMemoryIndexAsWritten(env.memoryTypes, env.imageTypeBits));
    if !env.allocOk {
      var d := Destroy(r, t);
      return Abandoned(t, d.1), d.0, memIndex, upload;
    }
    t := t.(memCount := 1);
    if !env.bindOk || !env.viewOk || !env.dsOk {
      var d := Destroy(r, t);
      return Abandoned(t, d.1), d.0, memIndex, upload;
    }
    t := t.(hasDescriptor := true);
    WellFormedSubsampled(props, fmt.value);
    var written;
    upload, written := WritePixels(r, t, FullRect(stride, width, height), data, env.span, env.mapOk);
    if upload.WriteFailed? {
      var d := Destroy(r, t);
      return Abandoned(t, d.1), d.0, memIndex, upload;
    }
    return Made(written), r, memIndex, upload;
  }
}
