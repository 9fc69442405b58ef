/** Per-device format capabilities: how each tiling modifier a device
    advertises for a format is sorted into the "render" list, the "texture"
    list or neither, the shm (optimal tiling) path, and lookup by modifier. */
module FormatProps {
  import opened Common
  import opened Vk
  import opened PixelFormat

  /** VkDrmFormatModifierPropertiesEXT: one modifier the device advertises. */
  datatype DrmModifierProps = DrmModifierProps(modifier: u64, planeCount: nat, tilingFeatures: Flags)

  /** The device's answer to an image-format query: anything other than
      VK_SUCCESS is `QueryFailed`. */
  datatype ImageQuery =
    | QueryFailed
    | QueryOk(maxExtent: Extent, externalFeatures: Flags, exportFromImported: Flags)

  /** What the device reports for one modifier: its properties and its answers
      to the image-format queries with render usage and with sampled usage. */
  datatype ModifierReport = ModifierReport(props: DrmModifierProps, renderQuery: ImageQuery, textureQuery: ImageQuery)

  /** What the device reports for one native format: the optimal-tiling
      features, the advertised modifiers in device order, and the answer to the
      optimal-tiling query used for shm textures. */
  datatype FormatReport = FormatReport(
    optimalTilingFeatures: Flags,
    modifiers: seq<ModifierReport>,
    shmQuery: ImageQuery)

  /** `wlr_vk_format_modifier_props`: a modifier accepted for one usage. */
  datatype ModifierProps = ModifierProps(
    props: DrmModifierProps,
    dmabufFlags: Flags,
    maxExtent: Extent,
    exportImported: bool)

  /** `wlr_vk_format_props`: what the device supports for one format. */
  datatype FormatProps = FormatProps(
    format: Format,
    maxExtent: Extent,
    features: Flags,
    renderMods: seq<ModifierProps>,
    textureMods: seq<ModifierProps>)

  /** The device tables that format queries fill in. The dmabuf format sets
      hold (fourcc, modifier) pairs. */
  datatype DeviceTables = DeviceTables(
    formatProps: seq<FormatProps>,
    shmFormats: seq<u32>,
    dmabufRenderFormats: set<(u32, u64)>,
    dmabufTextureFormats: set<(u32, u64)>)

  const EmptyTables := DeviceTables([], [], {}, {})

  /** The two dmabuf usages a modifier is checked for. */
  datatype Usage = Render | Texture

  /** Features a shm texture needs in optimal tiling. */
  const TEX_FEATURES: Flags := FORMAT_FEATURE_TRANSFER_SRC | FORMAT_FEATURE_TRANSFER_DST | FORMAT_FEATURE_SAMPLED_IMAGE

  /** Tiling features a modifier must intersect to be tried for a usage. */
  function RequiredFeatures(u: Usage): Flags {
    match u
    case Render => FORMAT_FEATURE_COLOR_ATTACHMENT
    case Texture => FORMAT_FEATURE_SAMPLED_IMAGE
  }

  function QueryFor(m: ModifierReport, u: Usage): ImageQuery {
    match u
    case Render => m.renderQuery
    case Texture => m.textureQuery
  }

  /** A modifier is kept for a usage when its tiling features intersect the
      usage's features, the image-format query succeeds and the memory is
      importable. */
  predicate Accepts(m: ModifierReport, u: Usage) {
    && Intersects(m.props.tilingFeatures, RequiredFeatures(u))
    && QueryFor(m, u).QueryOk?
    && Intersects(QueryFor(m, u).externalFeatures, EXTERNAL_MEMORY_FEATURE_IMPORTABLE)
  }

  /** The list entry recorded for an accepted modifier: extent and flags are
      copied from the query that accepted it. */
  function Entry(m: ModifierReport, u: Usage): ModifierProps
    requires QueryFor(m, u).QueryOk?
  {
    var q := QueryFor(m, u);
    ModifierProps(m.props, q.externalFeatures, q.maxExtent,
      Intersects(q.exportFromImported, EXTERNAL_MEMORY_HANDLE_TYPE_DMA_BUF))
  }

  /** The accepted modifiers of a device list, in device order. */
  function AcceptedModifiers(mods: seq<ModifierReport>, u: Usage): (r: seq<ModifierProps>)
    ensures |r| <= |mods|
    decreases |mods|
  {
    if mods == [] then []
    else
      var last := mods[|mods| - 1];
      AcceptedModifiers(mods[..|mods| - 1], u) + (if Accepts(last, u) then [Entry(last, u)] else [])
  }

  /** Every list entry comes from a modifier meeting all three conditions, with
      extent and flags copied from the query that accepted it. */
  lemma {:induction false} AcceptedSound(mods: seq<ModifierReport>, u: Usage, x: ModifierProps)
    requires x in AcceptedModifiers(mods, u)
    ensures exists k :: 0 <= k < |mods| && Accepts(mods[k], u) && x == Entry(mods[k], u)
    decreases |mods|
  {
    var init := mods[..|mods| - 1];
    if x in AcceptedModifiers(init, u) {
      AcceptedSound(init, u, x);
      var k :| 0 <= k < |init| && Accepts(init[k], u) && x == Entry(init[k], u);
      assert init[k] == mods[k];
    } else {
      assert x == Entry(mods[|mods| - 1], u);
    }
  }

  /** Every modifier meeting all three conditions gets an entry. */
  lemma {:induction false} AcceptedComplete(mods: seq<ModifierReport>, u: Usage, k: nat)
    requires k < |mods| && Accepts(mods[k], u)
    ensures Entry(mods[k], u) in AcceptedModifiers(mods, u)
    decreases |mods|
  {
    var init := mods[..|mods| - 1];
    if k < |init| {
      AcceptedComplete(init, u, k);
      assert init[k] == mods[k];
    }
  }

  /** The pairs a format query adds to a dmabuf format set. */
  function ModifierPairs(drm: u32, mods: seq<ModifierProps>): set<(u32, u64)> {
    set m | m in mods :: (drm, m.props.modifier)
  }

  /** The shm path: optimal tiling has one of the transfer/sampled features and
      the optimal-tiling query succeeds. */
  predicate ShmSupported(report: FormatReport) {
    Intersects(report.optimalTilingFeatures, TEX_FEATURES) && report.shmQuery.QueryOk?
  }

  /** The query does anything at all: neither the Y'CbCr guard nor an early
      allocation failure (only possible when there are modifiers) stops it. */
  predicate Proceeds(ycbcrEnabled: bool, format: Format, report: FormatReport, allocOk: bool) {
    && !(format.ycbcr && !ycbcrEnabled)
    && !(|report.modifiers| > 0 && !allocOk)
  }

  /** At least one of the render, texture or shm paths succeeded. */
  predicate AnyPathSupported(format: Format, report: FormatReport) {
    || |AcceptedModifiers(report.modifiers, Render)| > 0
    || |AcceptedModifiers(report.modifiers, Texture)| > 0
    || ShmSupported(report)
  }

  /** The format-props entry a successful query records. Extent and features
      stay zero unless the shm path succeeded. */
  function RecordedProps(format: Format, report: FormatReport): FormatProps {
    FormatProps(
      format,
      if ShmSupported(report) then report.shmQuery.maxExtent else Extent(0, 0),
      if ShmSupported(report) then report.optimalTilingFeatures else 0,
      AcceptedModifiers(report.modifiers, Render),
      AcceptedModifiers(report.modifiers, Texture))
  }

  lemma ModifierPairsAppend(drm: u32, mods: seq<ModifierProps>, e: ModifierProps)
    ensures ModifierPairs(drm, mods + [e]) == ModifierPairs(drm, mods) + {(drm, e.props.modifier)}
  {
  }

  /** The modifier loop of `wlr_vk_format_props_query`: each modifier is
      checked for render use and then for texture use; accepted ones are
      appended to the matching list and their pair added to the matching
      dmabuf format set. */
  method ClassifyModifiers(drm: u32, mods: seq<ModifierReport>, renderSet0: set<(u32, u64)>, textureSet0: set<(u32, u64)>)
    returns (renderMods: seq<ModifierProps>, textureMods: seq<ModifierProps>,
             renderSet: set<(u32, u64)>, textureSet: set<(u32, u64)>)
    ensures renderMods == AcceptedModifiers(mods, Render)
    ensures textureMods == AcceptedModifiers(mods, Texture)
    ensures renderSet == renderSet0 + ModifierPairs(drm, renderMods)
    ensures textureSet == textureSet0 + ModifierPairs(drm, textureMods)
  {
    renderMods, textureMods := [], [];
    renderSet, textureSet := renderSet0, textureSet0;
    var i := 0;
    while i < |mods|
      invariant 0 <= i <= |mods|
      invariant renderMods == AcceptedModifiers(mods[..i], Render)
      invariant textureMods == AcceptedModifiers(mods[..i], Texture)
      invariant renderSet == renderSet0 + ModifierPairs(drm, renderMods)
      invariant textureSet == textureSet0 + ModifierPairs(drm, textureMods)
    {
      var m := mods[i];
      assert mods[..i + 1][..i] == mods[..i];
      if Accepts(m, Render) {
        var e := Entry(m, Render);
        ModifierPairsAppend(drm, renderMods, e);
        renderMods := renderMods + [e];
        renderSet := renderSet + {(drm, m.props.modifier)};
      }
      if Accepts(m, Texture) {
        var e := Entry(m, Texture);
        ModifierPairsAppend(drm, textureMods, e);
        textureMods := textureMods + [e];
        textureSet := textureSet + {(drm, m.props.modifier)};
      }
      i := i + 1;
    }
    assert mods[..|mods|] == mods;
  }

  /** The tables after querying one format, defined by the outcome of each
      path: nothing changes when the query does not proceed; otherwise the
      format joins the shm list when the shm path succeeds, the accepted
      modifiers' pairs join the dmabuf format sets, and one format-props
      entry is appended when any path succeeded. */
  function QueryStep(tables: DeviceTables, ycbcrEnabled: bool, format: Format, report: FormatReport, allocOk: bool): DeviceTables {
    if !Proceeds(ycbcrEnabled, format, report, allocOk) then tables
    else DeviceTables(
      tables.formatProps + (if AnyPathSupported(format, report) then [RecordedProps(format, report)] else []),
      tables.shmFormats + (if ShmSupported(report) then [format.drmFormat] else []),
      tables.dmabufRenderFormats + ModifierPairs(format.drmFormat, AcceptedModifiers(report.modifiers, Render)),
      tables.dmabufTextureFormats + ModifierPairs(format.drmFormat, AcceptedModifiers(report.modifiers, Texture)))
  }

  /** `wlr_vk_format_props_query`: the Y'CbCr guard, the early return on a
      failed allocation, the modifier loop, the shm check and the conditional
      append of one format-props entry. */
  method QueryFormat(tables: DeviceTables, ycbcrEnabled: bool, format: Format, report: FormatReport, allocOk: bool)
    returns (t: DeviceTables)
    ensures !Proceeds(ycbcrEnabled, format, report, allocOk) ==> t == tables
    ensures Proceeds(ycbcrEnabled, format, report, allocOk) ==>
      t.shmFormats == tables.shmFormats + (if ShmSupported(report) then [format.drmFormat] else [])
    ensures Proceeds(ycbcrEnabled, format, report, allocOk) ==>
      t.dmabufRenderFormats == tables.dmabufRenderFormats
        + ModifierPairs(format.drmFormat, AcceptedModifiers(report.modifiers, Render))
    ensures Proceeds(ycbcrEnabled, format, report, allocOk) ==>
      t.dmabufTextureFormats == tables.dmabufTextureFormats
        + ModifierPairs(format.drmFormat, AcceptedModifiers(report.modifiers, Texture))
    ensures Proceeds(ycbcrEnabled, format, report, allocOk) ==>
      t.formatProps == tables.formatProps
        + (if AnyPathSupported(format, report) then [RecordedProps(format, report)] else [])
    ensures t == QueryStep(tables, ycbcrEnabled, format, report, allocOk)
  {
    if !Proceeds(ycbcrEnabled, format, report, allocOk) {
      return tables;
    }
    var renderMods, textureMods, renderSet, textureSet :=
      ClassifyModifiers(format.drmFormat, report.modifiers,
        tables.dmabufRenderFormats, tables.dmabufTextureFormats);
    var addFmtProps := |renderMods| > 0 || |textureMods| > 0;
    var maxExtent := Extent(0, 0);
    var features: Flags := 0;
    var shm := tables.shmFormats;
    if ShmSupported(report) {
      maxExtent := report.shmQuery.maxExtent;
      features := report.optimalTilingFeatures;
      shm := shm + [format.drmFormat];
      addFmtProps := true;
    } else {
      assert shm == tables.shmFormats + [];
    }
    assert addFmtProps == AnyPathSupported(format, report);
    var entry := FormatProps(format, maxExtent, features, renderMods, textureMods);
    assert entry == RecordedProps(format, report);
    var props := tables.formatProps;
    if addFmtProps {
      props := props + [entry];
    }
    t := DeviceTables(props, shm, renderSet, textureSet);
  }

  /** A modifier lands in a list only when all three conditions hold, and the
      recorded extent and flags are those of the query that accepted it. */
  lemma AcceptedOnlyIfAllThree(mods: seq<ModifierReport>, u: Usage, x: ModifierProps)
    requires x in AcceptedModifiers(mods, u)
    ensures exists k :: (0 <= k < |mods|
      && mods[k].props == x.props
      && Intersects(mods[k].props.tilingFeatures, RequiredFeatures(u))
      && QueryFor(mods[k], u).QueryOk?
      && Intersects(QueryFor(mods[k], u).externalFeatures, EXTERNAL_MEMORY_FEATURE_IMPORTABLE)
      && x.maxExtent == QueryFor(mods[k], u).maxExtent
      && x.dmabufFlags == QueryFor(mods[k], u).externalFeatures)
  {
    AcceptedSound(mods, u, x);
  }

  /** The accepted entries of a prefix of the device list are a prefix of the
      accepted entries of the whole list. */
  lemma {:induction false} AcceptedPrefix(mods: seq<ModifierReport>, n: nat, u: Usage)
    requires n <= |mods|
    ensures AcceptedModifiers(mods[..n], u) <= AcceptedModifiers(mods, u)
    decreases |mods| - n
  {
    if n < |mods| {
      var m1 := mods[..n + 1];
      assert m1[..|m1| - 1] == mods[..n];
      AcceptedPrefix(mods, n + 1, u);
    } else {
      assert mods[..n] == mods;
    }
  }

  /** The entry of an accepted modifier sits right after the entries of the
      modifiers before it. */
  lemma AcceptedPosition(mods: seq<ModifierReport>, k: nat, u: Usage)
    requires k < |mods| && Accepts(mods[k], u)
    ensures |AcceptedModifiers(mods[..k], u)| < |AcceptedModifiers(mods, u)|
    ensures AcceptedModifiers(mods, u)[|AcceptedModifiers(mods[..k], u)|] == Entry(mods[k], u)
  {
    var m1 := mods[..k + 1];
    assert m1[..|m1| - 1] == mods[..k];
    AcceptedPrefix(mods, k + 1, u);
  }

  /** Both lists keep the device's modifier order: of two accepted modifiers,
      the earlier one's entry comes first. */
  lemma AcceptedKeepsOrder(mods: seq<ModifierReport>, i: nat, j: nat, u: Usage)
    requires i < j < |mods|
    requires Accepts(mods[i], u) && Accepts(mods[j], u)
    ensures exists p, q :: (0 <= p < q < |AcceptedModifiers(mods, u)|
      && AcceptedModifiers(mods, u)[p] == Entry(mods[i], u)
      && AcceptedModifiers(mods, u)[q] == Entry(mods[j], u))
  {
    AcceptedPosition(mods, i, u);
    AcceptedPosition(mods, j, u);
    var p := |AcceptedModifiers(mods[..i], u)|;
    var q := |AcceptedModifiers(mods[..j], u)|;
    AcceptedPosition(mods[..j], i, u);
    assert mods[..j][..i] == mods[..i];
    assert mods[..j][i] == mods[i];
    assert p < q;
  }

  /** Index of the first entry of `list` with the given modifier. */
  function FirstWithModifier(list: seq<ModifierProps>, modifier: u64): (r: Option<nat>)
    ensures r.None? <==> forall i :: 0 <= i < |list| ==> list[i].props.modifier != modifier
    ensures r.Some? ==> r.value < |list| && list[r.value].props.modifier == modifier
    ensures r.Some? ==> forall k :: 0 <= k < r.value ==> list[k].props.modifier != modifier
  {
    if list == [] then None
    else if list[0].props.modifier == modifier then Some(0)
    else
      match FirstWithModifier(list[1..], modifier)
      case None => None
      case Some(i) => Some(i + 1)
  }

  /** The list `find_modifier` searches: render entries or texture entries. */
  function ModifierList(props: FormatProps, render: bool): seq<ModifierProps> {
    if render then props.renderMods else props.textureMods
  }

  /** `wlr_vk_format_props_find_modifier`: the first entry with the requested
      modifier, searching only the render list when `render` is set and only
      the texture list otherwise; nothing when no entry matches. */
  function FindModifier(props: FormatProps, modifier: u64, render: bool): (r: Option<ModifierProps>)
    ensures r.None? <==> forall i :: 0 <= i < |ModifierList(props, render)| ==>
      ModifierList(props, render)[i].props.modifier != modifier
    ensures r.Some? ==> r.value in ModifierList(props, render) && r.value.props.modifier == modifier
    ensures r.Some? ==>
      var list := ModifierList(props, render);
      exists i :: 0 <= i < |list| && list[i] == r.value
        && forall k :: 0 <= k < i ==> list[k].props.modifier != modifier
  {
    var list := ModifierList(props, render);
    match FirstWithModifier(list, modifier)
    case None => None
    case Some(i) => Some(list[i])
  }

  /** `wlr_vk_format_from_drm` (declared in the header, implementation not part
      of this model): the first device entry for a fourcc code. */
  function FormatPropsFromDrm(props: seq<FormatProps>, drm: u32): (r: Option<FormatProps>)
    ensures r.None? <==> forall i :: 0 <= i < |props| ==> props[i].format.drmFormat != drm
    ensures r.Some? ==> r.value in props && r.value.format.drmFormat == drm
    ensures r.Some? ==> exists i :: (0 <= i < |props| && props[i] == r.value
      && forall k :: 0 <= k < i ==> props[k].format.drmFormat != drm)
  {
    if props == [] then None
    else if props[0].format.drmFormat == drm then Some(props[0])
    else
      var r := FormatPropsFromDrm(props[1..], drm);
      assert forall k :: 1 <= k < |props| ==> props[k] == props[1..][k - 1];
      r
  }
}
