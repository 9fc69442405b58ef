/** Texture records, the renderer's frame counter and list of textures whose
    destruction waits for the end of the frame, and texture destruction. */
module TextureState {
  import opened Common
  import opened PixelFormat

  /** The state of one texture that the rest of the renderer inspects.
      Device handles are represented by what destruction releases: the
      number of device memories and whether a descriptor set is held. */
  datatype Texture = Texture(
    id: nat,
    width: nat,
    height: nat,
    format: Format,
    hasRenderer: bool,
    memCount: nat,
    hasDescriptor: bool,
    lastUsed: u32,
    invertY: bool,
    dmabufImported: bool)

  /** A texture straight after `calloc` and initialisation: bound to the
      renderer, no memories, no descriptor, every flag and `last_used` zero. */
  function NewTexture(id: nat, width: nat, height: nat, format: Format): (t: Texture)
    ensures t.hasRenderer && t.memCount == 0 && !t.hasDescriptor && t.lastUsed == 0
    ensures !t.invertY && !t.dmabufImported
    ensures t.id == id && t.width == width && t.height == height && t.format == format
  {
    Texture(id, width, height, format, true, 0, false, 0, false, false)
  }

  /** `is_opaque`: a texture is opaque when its format carries no alpha. */
  function IsOpaque(t: Texture): bool {
    !t.format.hasAlpha
  }

  /** For textures of a table format, opacity is decided by the fourcc code. */
  lemma OpaqueIffNoAlphaCode(t: Texture, i: nat)
    requires i < |Formats| && t.format == Formats[i]
    ensures IsOpaque(t) <==> !AlphaCode(t.format.drmFormat)
  {
    FormatTableShape();
  }

  /** The renderer state textures depend on: the frame counter and the list of
      textures to destroy once the frame's staging commands have executed. */
  datatype Renderer = Renderer(frame: u32, destroyTextures: seq<Texture>)

  predicate Queued(r: Renderer, id: nat) {
    exists k :: 0 <= k < |r.destroyTextures| && r.destroyTextures[k].id == id
  }

  /** What destroying a texture did. */
  datatype Release =
    | HostOnly                                        // no renderer: only the record is freed
    | Deferred                                        // queued until the end of the frame
    | Released(memoriesFreed: nat, descriptorFreed: bool)

  /** The release of all device resources of a texture. */
  function ReleaseNow(t: Texture): Release {
    Released(t.memCount, t.hasDescriptor)
  }

  /** Destruction is postponed exactly when commands recorded in the current
      frame may still read the texture. */
  predicate MustDefer(r: Renderer, t: Texture) {
    t.hasRenderer && t.lastUsed == r.frame
  }

  /** `texture_destroy`: without a renderer only the record is freed; a
      texture used in the current frame is put at the front of the deferred
      list (the source asserts it is not there yet) and nothing is freed;
      otherwise the descriptor set, view, image and all `mem_count` memories
      are released. Only a deferral changes the renderer. */
  function Destroy(r: Renderer, t: Texture): (res: (Renderer, Release))
    requires MustDefer(r, t) ==> !Queued(r, t.id)
    ensures res.1.Deferred? <==> MustDefer(r, t)
    ensures res.1.HostOnly? <==> !t.hasRenderer
    ensures res.1.Released? ==> res.1.memoriesFreed == t.memCount && res.1.descriptorFreed == t.hasDescriptor
    ensures res.1.Deferred? ==> Queued(res.0, t.id) && |res.0.destroyTextures| == |r.destroyTextures| + 1
    ensures res.1.Deferred? ==> forall k :: 0 <= k < |r.destroyTextures| ==>
      res.0.destroyTextures[k + 1] == r.destroyTextures[k]
    ensures !res.1.Deferred? ==> res.0 == r
    ensures res.0.frame == r.frame
  {
    if !t.hasRenderer then (r, HostOnly)
    else if t.lastUsed == r.frame then
      var queued := r.(destroyTextures := [t] + r.destroyTextures);
      assert queued.destroyTextures[0] == t;
      (queued, Deferred)
    else (r, ReleaseNow(t))
  }

  /** The frame after `frame`, in 32-bit unsigned arithmetic. */
  function NextFrame(frame: u32): u32 {
    (frame + 1) % 0x1_0000_0000
  }

  /** Ending a frame advances the frame counter by one (wrapping at 2^32) and
      releases every deferred texture. The header does not say in which
      order; the model releases them in list order. */
  function EndFrame(r: Renderer): (res: (Renderer, seq<Release>))
    ensures res.0.frame != r.frame
    ensures r.frame < U32_MAX ==> res.0.frame == r.frame + 1
    ensures r.frame == U32_MAX ==> res.0.frame == 0
    ensures res.0.destroyTextures == []
    ensures |res.1| == |r.destroyTextures|
    ensures forall k :: 0 <= k < |r.destroyTextures| ==>
      res.1[k] == Released(r.destroyTextures[k].memCount, r.destroyTextures[k].hasDescriptor)
  {
    (Renderer(NextFrame(r.frame), []), seq(|r.destroyTextures|, k requires 0 <= k < |r.destroyTextures| => ReleaseNow(r.destroyTextures[k])))
  }

  /** A texture destroyed in the frame it was used in keeps its resources
      until the frame ends, and the end of the frame releases all of them. */
  lemma DeferredReleasedAtEndFrame(r: Renderer, t: Texture)
    requires MustDefer(r, t) && !Queued(r, t.id)
    ensures Destroy(r, t).1 == Deferred
    ensures var ended := EndFrame(Destroy(r, t).0);
      |ended.1| >= 1 && ended.1[0] == Released(t.memCount, t.hasDescriptor)
  {
  }

  /** A texture whose last use was in the frame that has just ended is
      released immediately, never deferred a second time. */
  lemma DestroyAfterEndFrameIsImmediate(r: Renderer, t: Texture)
    requires t.hasRenderer && t.lastUsed == r.frame
    ensures Destroy(EndFrame(r).0, t).1 == Released(t.memCount, t.hasDescriptor)
  {
  }
}
