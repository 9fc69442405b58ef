/** Creation of the Vulkan instance and device: which extensions and layers
    are enabled, how validation messages are logged, which queue family is
    used, and the per-format capability queries run when a device is made.
    Every native call is an answer supplied by the caller. */
module Bootstrap {
  import opened Common
  import opened Vk
  import opened PixelFormat
  import opened FormatProps

  const EXT_DEBUG_UTILS: string := "VK_EXT_debug_utils"
  const EXT_SWAPCHAIN: string := "VK_KHR_swapchain"
  const EXT_DISPLAY_CONTROL: string := "VK_EXT_display_control"
  const EXT_EXTERNAL_MEMORY_FD: string := "VK_KHR_external_memory_fd"
  const EXT_EXTERNAL_MEMORY_DMA_BUF: string := "VK_EXT_external_memory_dma_buf"
  const EXT_QUEUE_FAMILY_FOREIGN: string := "VK_EXT_queue_family_foreign"
  const EXT_IMAGE_DRM_FORMAT_MODIFIER: string := "VK_EXT_image_drm_format_modifier"
  const EXT_INCREMENTAL_PRESENT: string := "VK_KHR_incremental_present"
  const LAYER_VALIDATION: string := "VK_LAYER_KHRONOS_validation"

  /** The extensions dmabuf import needs; the device enables none of them
      unless it has all three. */
  const DmabufExtensions: seq<string> := [EXT_EXTERNAL_MEMORY_FD, EXT_EXTERNAL_MEMORY_DMA_BUF, EXT_QUEUE_FAMILY_FOREIGN]

  /** The availability test used to filter requested extensions. */
  function InList(avail: seq<string>): string -> bool {
    x => x in avail
  }

  /** `find_extensions`: the first requested name that no available
      extension carries, in request order, or nothing when all are there. */
  method FindExtensions(avail: seq<string>, req: seq<string>) returns (missing: Option<string>)
    ensures missing.None? <==> forall i :: 0 <= i < |req| ==> req[i] in avail
    ensures missing.Some? ==>
      exists i :: 0 <= i < |req| && req[i] == missing.value && req[i] !in avail &&
        forall k :: 0 <= k < i ==> req[k] in avail
  {
    for i := 0 to |req|
      invariant forall k :: 0 <= k < i ==> req[k] in avail
    {
      var found := false;
      for j := 0 to |avail|
        invariant found <==> exists m :: 0 <= m < j && avail[m] == req[i]
      {
        if avail[j] == req[i] {
          found := true;
          break;
        }
      }
      if !found {
        return Some(req[i]);
      }
    }
    return None;
  }

  /** `find_extensions` on a single name. */
  method HasExtension(avail: seq<string>, name: string) returns (b: bool)
    ensures b <==> name in avail
  {
    var missing := FindExtensions(avail, [name]);
    assert [name][0] == name;
    b := missing.None?;
  }

  /** The requested extensions that are available, in request order; the
      others are skipped with a debug message. */
  method FilterAvailable(avail: seq<string>, requested: seq<string>) returns (exts: seq<string>)
    ensures exts == Filter(requested, InList(avail))
  {
    exts := [];
    for i := 0 to |requested|
      invariant exts == Filter(requested[..i], InList(avail))
    {
      var ok := HasExtension(avail, requested[i]);
      FilterAppend(requested[..i], requested[i], InList(avail));
      assert requested[..i + 1] == requested[..i] + [requested[i]];
      if ok {
        exts := exts + [requested[i]];
      }
    }
    assert requested[..|requested|] == requested;
  }

  /** VkDebugUtilsMessageSeverityFlagBitsEXT values. */
  function SeverityBit(s: Severity): Flags {
    match s
    case Verbose => 0x0001
    case Info => 0x0010
    case Warning => 0x0100
    case Error => 0x1000
  }

  /** The severities the instance's messenger subscribes to: warnings and
      errors. */
  const MESSENGER_SEVERITIES: Flags := 0x0100 | 0x1000

  /** wlroots log importance levels used by the callback. */
  datatype Importance = LogError | LogInfo

  /** `debug_callback`: warnings and errors are logged as errors, everything
      else as information; the callback never asks to abort the call that
      triggered it. */
  function DebugCallback(s: Severity): (r: (Importance, bool))
    ensures r.0 == LogError <==> s == Warning || s == Error
    ensures !r.1
  {
    match s
    case Warning => (LogError, false)
    case Error => (LogError, false)
    case _ => (LogInfo, false)
  }

  /** Exactly the messages the messenger is subscribed to are logged as
      errors. */
  lemma MessengerSeveritiesAreErrors(s: Severity)
    ensures Intersects(SeverityBit(s), MESSENGER_SEVERITIES) <==> DebugCallback(s).0 == LogError
  {
  }

  /** The instance-creation calls' answers: both enumerations of the
      available extensions, the allocations, instance creation, the
      lookup of the messenger entry point and the messenger creation call,
      whose result the source ignores. */
  datatype InstanceEnv = InstanceEnv(
    enumerateOk: bool,
    available: seq<string>,
    enumerate2Ok: bool,
    allocOk: bool,
    createOk: bool,
    messengerFnFound: bool,
    messengerCreateOk: bool)

  /** A created instance: its enabled extensions and layers, whether the
      messenger settings were chained into instance creation, and whether a
      messenger exists. */
  datatype Instance = Instance(extensions: seq<string>, layers: seq<string>, debugChained: bool, messenger: bool)

  /** The instance extensions `wlr_vk_instance_create` enables: the
      available requested ones in request order, then debug utils when
      debugging and available. */
  predicate InstanceExtensions(exts: seq<string>, requested: seq<string>, debug: bool, avail: seq<string>) {
    exts == Filter(requested, InList(avail)) + (if debug && EXT_DEBUG_UTILS in avail then [EXT_DEBUG_UTILS] else [])
  }

  /** The enabled instance extensions fit the array of `ext_count + 1`
      entries, are all available, and include every available requested
      one and, when debugging, debug utils if available. */
  lemma InstanceExtensionsShape(exts: seq<string>, requested: seq<string>, debug: bool, avail: seq<string>)
    requires InstanceExtensions(exts, requested, debug, avail)
    ensures |exts| <= |requested| + 1
    ensures forall e :: e in exts ==> e in avail
    ensures forall i :: 0 <= i < |requested| && requested[i] in avail ==> requested[i] in exts
    ensures debug && EXT_DEBUG_UTILS in avail ==> EXT_DEBUG_UTILS in exts
  {
    var kept := Filter(requested, InList(avail));
    forall e | e in exts
      ensures e in avail
    {
      if e in kept {
        assert InList(avail)(e);
      }
    }
    forall i | 0 <= i < |requested| && requested[i] in avail
      ensures requested[i] in exts
    {
      assert InList(avail)(requested[i]);
      assert requested[i] in kept;
    }
  }

  /** `wlr_vk_instance_create`: the available requested extensions, plus the
      debug-utils extension when debugging and available; the validation
      layer only when debugging; the messenger only with debug utils, its
      entry point and a successful creation call. A failed creation call
      does not fail the instance. */
  method InstanceCreate(requested: seq<string>, debug: bool, env: InstanceEnv) returns (r: Option<Instance>)
    ensures r.None? <==>
      !env.enumerateOk || |env.available| == 0 || !env.enumerate2Ok || !env.allocOk || !env.createOk
    ensures r.Some? ==> InstanceExtensions(r.value.extensions, requested, debug, env.available)
    ensures r.Some? ==> r.value.layers == (if debug then [LAYER_VALIDATION] else [])
    ensures r.Some? ==> (r.value.debugChained <==> debug && EXT_DEBUG_UTILS in env.available)
    ensures r.Some? ==> (r.value.messenger <==> r.value.debugChained && env.messengerFnFound && env.messengerCreateOk)
  {
    if !env.enumerateOk || |env.available| == 0 || !env.enumerate2Ok || !env.allocOk {
      return None;
    }
    var exts := FilterAvailable(env.available, requested);
    var debugUtilsFound := false;
    if debug {
      debugUtilsFound := HasExtension(env.available, EXT_DEBUG_UTILS);
      if debugUtilsFound {
        exts := exts + [EXT_DEBUG_UTILS];
      }
    }
    var layers := if debug then [LAYER_VALIDATION] else [];
    if !env.createOk {
      return None;
    }
    var messenger := false;
    if debugUtilsFound && env.messengerFnFound {
      messenger := env.messengerCreateOk;
    }
    return Some(Instance(exts, layers, debugUtilsFound, messenger));
  }

  /** The extensions the device adds after the requested ones: the
      swapchain (then display control), the dmabuf trio, the DRM format
      modifier extension, incremental present, each when available. */
  function DeviceExtras(avail: seq<string>): seq<string> {
    (if EXT_SWAPCHAIN in avail then
       [EXT_SWAPCHAIN] + (if EXT_DISPLAY_CONTROL in avail then [EXT_DISPLAY_CONTROL] else [])
     else [])
    + DmabufExtensions
    + (if EXT_IMAGE_DRM_FORMAT_MODIFIER in avail then [EXT_IMAGE_DRM_FORMAT_MODIFIER] else [])
    + (if EXT_INCREMENTAL_PRESENT in avail then [EXT_INCREMENTAL_PRESENT] else [])
  }

  /** The device's own additions fit the seven spare slots of its extension
      array, are all available when the dmabuf trio is, and display control
      comes only after the swapchain. */
  lemma DeviceExtrasShape(avail: seq<string>)
    ensures |DeviceExtras(avail)| <= 7
    ensures (forall i :: 0 <= i < |DmabufExtensions| ==> DmabufExtensions[i] in avail) ==>
      forall e :: e in DeviceExtras(avail) ==> e in avail
    ensures EXT_DISPLAY_CONTROL in DeviceExtras(avail) ==>
      EXT_SWAPCHAIN in avail && DeviceExtras(avail)[0] == EXT_SWAPCHAIN && DeviceExtras(avail)[1] == EXT_DISPLAY_CONTROL
  {
  }

  /** The device's own additions, in the order `wlr_vk_device_create` makes
      them; nothing when one of the dmabuf extensions is missing. */
  method AddDeviceExtras(avail: seq<string>) returns (extras: Option<seq<string>>)
    ensures extras.None? <==> exists i :: 0 <= i < |DmabufExtensions| && DmabufExtensions[i] !in avail
    ensures extras.Some? ==> extras.value == DeviceExtras(avail)
  {
    var list: seq<string> := [];
    var swapchain := HasExtension(avail, EXT_SWAPCHAIN);
    if swapchain {
      list := list + [EXT_SWAPCHAIN];
      var display := HasExtension(avail, EXT_DISPLAY_CONTROL);
      if display {
        list := list + [EXT_DISPLAY_CONTROL];
      }
    }
    var missing := FindExtensions(avail, DmabufExtensions);
    if missing.Some? {
      return None;
    }
    list := list + DmabufExtensions;
    var modifiers := HasExtension(avail, EXT_IMAGE_DRM_FORMAT_MODIFIER);
    if modifiers {
      list := list + [EXT_IMAGE_DRM_FORMAT_MODIFIER];
    }
    var incremental := HasExtension(avail, EXT_INCREMENTAL_PRESENT);
    if incremental {
      list := list + [EXT_INCREMENTAL_PRESENT];
    }
    return Some(list);
  }

  /** The device extensions `wlr_vk_device_create` enables: the available
      requested ones in request order, then the device's own. */
  predicate DeviceExtensions(exts: seq<string>, requested: seq<string>, avail: seq<string>) {
    exts == Filter(requested, InList(avail)) + DeviceExtras(avail)
  }

  /** With the dmabuf trio available, the enabled device extensions fit the
      array of `7 + ext_count` entries, are all available, and include
      every available requested one and the trio. */
  lemma DeviceExtensionsShape(exts: seq<string>, requested: seq<string>, avail: seq<string>)
    requires DeviceExtensions(exts, requested, avail)
    requires forall i :: 0 <= i < |DmabufExtensions| ==> DmabufExtensions[i] in avail
    ensures |exts| <= |requested| + 7
    ensures forall e :: e in exts ==> e in avail
    ensures forall i :: 0 <= i < |requested| && requested[i] in avail ==> requested[i] in exts
    ensures forall i :: 0 <= i < |DmabufExtensions| ==> DmabufExtensions[i] in exts
  {
    DeviceExtrasShape(avail);
    var kept := Filter(requested, InList(avail));
    forall e | e in exts
      ensures e in avail
    {
      if e in kept {
        assert InList(avail)(e);
      }
    }
    forall i | 0 <= i < |requested| && requested[i] in avail
      ensures requested[i] in exts
    {
      assert InList(avail)(requested[i]);
      assert requested[i] in kept;
    }
    forall i | 0 <= i < |DmabufExtensions|
      ensures DmabufExtensions[i] in exts
    {
      assert DmabufExtensions[i] in DeviceExtras(avail);
    }
  }

  /** The extension selection of `wlr_vk_device_create`. It fails exactly
      when one of the three dmabuf extensions is missing; otherwise the
      available requested extensions come first, then the device's own, and
      all of them fit the array of `7 + ext_count` entries. */
  method SelectDeviceExtensions(avail: seq<string>, requested: seq<string>) returns (exts: Option<seq<string>>)
    ensures exts.None? <==> exists i :: 0 <= i < |DmabufExtensions| && DmabufExtensions[i] !in avail
    ensures exts.Some? ==> DeviceExtensions(exts.value, requested, avail)
  {
    var list := FilterAvailable(avail, requested);
    var extras := AddDeviceExtras(avail);
    if extras.None? {
      return None;
    }
    return Some(list + extras.value);
  }

  predicate IsGraphics(flags: Flags) {
    Intersects(flags, QUEUE_GRAPHICS)
  }

  /** The queue family search of `wlr_vk_device_create`: the first family
      with graphics support. The source asserts that there is one. */
  method QueueFamily(families: seq<Flags>) returns (i: nat)
    requires exists k :: 0 <= k < |families| && IsGraphics(families[k])
    ensures i < |families| && IsGraphics(families[i])
    ensures forall k :: 0 <= k < i ==> !IsGraphics(families[k])
  {
    i := 0;
    while i < |families|
      invariant i <= |families|
      invariant forall k :: 0 <= k < i ==> !IsGraphics(families[k])
    {
      if IsGraphics(families[i]) {
        return i;
      }
      i := i + 1;
    }
    assert false;
  }

  /** The device-creation calls' answers: the extension enumerations, the
      allocation, the Y'CbCr conversion feature, the queue families, device
      creation, the lookup of the fd entry point, the table allocations, and
      for the `i`-th table format the device's report and whether the
      query's allocation succeeds. */
  datatype DeviceEnv = DeviceEnv(
    enumerateOk: bool,
    available: seq<string>,
    enumerate2Ok: bool,
    allocOk: bool,
    ycbcr: bool,
    queueFamilies: seq<Flags>,
    createOk: bool,
    fdFnFound: bool,
    tablesAllocOk: bool,
    reports: nat -> FormatReport,
    queryAllocOk: nat -> bool)

  /** A created device: its extensions, whether Y'CbCr conversion is enabled,
      its queue family and the format tables the queries filled in. */
  datatype Device = Device(extensions: seq<string>, ycbcr: bool, queueFamily: nat, tables: DeviceTables)

  /** The device reaches the queue family search. */
  predicate ReachesQueueSearch(env: DeviceEnv) {
    && env.enumerateOk && |env.available| > 0 && env.enumerate2Ok && env.allocOk
    && forall i :: 0 <= i < |DmabufExtensions| ==> DmabufExtensions[i] in env.available
  }

  /** There are no more entries than table formats, every recorded format is
      a well-formed table entry, and Y'CbCr formats appear only with the
      conversion feature. */
  predicate TablesFromFormats(tables: DeviceTables, ycbcr: bool) {
    && |tables.formatProps| <= |Formats|
    && (forall k :: 0 <= k < |tables.formatProps| ==> tables.formatProps[k].format in Formats)
    && (forall k :: 0 <= k < |tables.formatProps| ==> ValidFormat(tables.formatProps[k].format))
    && (!ycbcr ==> forall k :: 0 <= k < |tables.formatProps| ==> !tables.formatProps[k].format.ycbcr)
  }

  /** The tables after querying the formats `fs[i..]`, once each and in
      order, starting from `t`; `reports(i)` and `allocOk(i)` are the
      device's answers for format `i`. */
  function QueryFrom(t: DeviceTables, fs: seq<Format>, ycbcr: bool, reports: nat -> FormatReport, allocOk: nat -> bool, i: nat): DeviceTables
    requires i <= |fs|
    decreases |fs| - i
  {
    if i == |fs| then t
    else QueryFrom(QueryStep(t, ycbcr, fs[i], reports(i), allocOk(i)), fs, ycbcr, reports, allocOk, i + 1)
  }

  /** The query of format `i` records a format-props entry. */
  predicate RecordedAt(fs: seq<Format>, ycbcr: bool, reports: nat -> FormatReport, allocOk: nat -> bool, i: nat)
    requires i < |fs|
  {
    Proceeds(ycbcr, fs[i], reports(i), allocOk(i)) && AnyPathSupported(fs[i], reports(i))
  }

  /** The entry the query of format `i` records when it records one. */
  function EntryAt(fs: seq<Format>, reports: nat -> FormatReport, i: nat): (e: FormatProps)
    requires i < |fs|
    ensures e.format == fs[i]
  {
    RecordedProps(fs[i], reports(i))
  }

  /** The entries recorded for the formats `fs[i..]`. */
  function RecordedFrom(fs: seq<Format>, ycbcr: bool, reports: nat -> FormatReport, allocOk: nat -> bool, i: nat): seq<FormatProps>
    requires i <= |fs|
    decreases |fs| - i
  {
    if i == |fs| then []
    else
      (if RecordedAt(fs, ycbcr, reports, allocOk, i) then [EntryAt(fs, reports, i)] else [])
        + RecordedFrom(fs, ycbcr, reports, allocOk, i + 1)
  }

  /** The query loop only appends to `format_props`: what it appends is the
      recorded entries in format order. */
  lemma {:induction false} QueryFromProps(t: DeviceTables, fs: seq<Format>, ycbcr: bool, reports: nat -> FormatReport, allocOk: nat -> bool, i: nat)
    requires i <= |fs|
    ensures QueryFrom(t, fs, ycbcr, reports, allocOk, i).formatProps == t.formatProps + RecordedFrom(fs, ycbcr, reports, allocOk, i)
    decreases |fs| - i
  {
    if i < |fs| {
      var head := if RecordedAt(fs, ycbcr, reports, allocOk, i) then [EntryAt(fs, reports, i)] else [];
      var rest := RecordedFrom(fs, ycbcr, reports, allocOk, i + 1);
      var t' := QueryStep(t, ycbcr, fs[i], reports(i), allocOk(i));
      assert t'.formatProps == t.formatProps + head;
      QueryFromProps(t', fs, ycbcr, reports, allocOk, i + 1);
      assert t.formatProps + head + rest == t.formatProps + (head + rest);
    }
  }

  /** `e` is the entry the query of some format at or after index `i`
      recorded. */
  predicate RecordedEntryFrom(fs: seq<Format>, ycbcr: bool, reports: nat -> FormatReport, allocOk: nat -> bool, i: nat, e: FormatProps) {
    exists j :: i <= j < |fs| && RecordedAt(fs, ycbcr, reports, allocOk, j) && e == EntryAt(fs, reports, j)
  }

  /** Each entry recorded from index `i` on is the entry of one format at or
      after `i` whose query recorded it, and every such format has its
      entry. */
  lemma {:induction false} RecordedFromEntries(fs: seq<Format>, ycbcr: bool, reports: nat -> FormatReport, allocOk: nat -> bool, i: nat)
    requires i <= |fs|
    ensures forall e :: e in RecordedFrom(fs, ycbcr, reports, allocOk, i) ==>
      RecordedEntryFrom(fs, ycbcr, reports, allocOk, i, e)
    ensures forall j :: i <= j < |fs| && RecordedAt(fs, ycbcr, reports, allocOk, j) ==>
      EntryAt(fs, reports, j) in RecordedFrom(fs, ycbcr, reports, allocOk, i)
    decreases |fs| - i
  {
    if i < |fs| {
      RecordedFromEntries(fs, ycbcr, reports, allocOk, i + 1);
      var head := if RecordedAt(fs, ycbcr, reports, allocOk, i) then [EntryAt(fs, reports, i)] else [];
      var rest := RecordedFrom(fs, ycbcr, reports, allocOk, i + 1);
      assert RecordedFrom(fs, ycbcr, reports, allocOk, i) == head + rest;
      forall e | e in head + rest
        ensures RecordedEntryFrom(fs, ycbcr, reports, allocOk, i, e)
      {
        if e in rest {
          var j :| i + 1 <= j < |fs| && RecordedAt(fs, ycbcr, reports, allocOk, j) && e == EntryAt(fs, reports, j);
        } else {
          assert RecordedAt(fs, ycbcr, reports, allocOk, i) && e == EntryAt(fs, reports, i);
        }
      }
    }
  }

  /** The fourcc codes of `fs` are pairwise distinct. */
  predicate DistinctCodes(fs: seq<Format>) {
    forall a, b :: 0 <= a < b < |fs| ==> fs[a].drmFormat != fs[b].drmFormat
  }

  /** No entry recorded after index `i` shares the fourcc code of format
      `i`. */
  lemma LaterCodesDiffer(fs: seq<Format>, ycbcr: bool, reports: nat -> FormatReport, allocOk: nat -> bool, i: nat)
    requires i < |fs| && DistinctCodes(fs)
    ensures forall e :: e in RecordedFrom(fs, ycbcr, reports, allocOk, i + 1) ==> e.format.drmFormat != fs[i].drmFormat
  {
    RecordedFromEntries(fs, ycbcr, reports, allocOk, i + 1);
    forall e | e in RecordedFrom(fs, ycbcr, reports, allocOk, i + 1)
      ensures e.format.drmFormat != fs[i].drmFormat
    {
      var j :| i + 1 <= j < |fs| && RecordedAt(fs, ycbcr, reports, allocOk, j) && e == EntryAt(fs, reports, j);
      assert fs[i].drmFormat != fs[j].drmFormat;
    }
  }

  /** No two entries of `props` share a fourcc code. */
  predicate DistinctEntryCodes(props: seq<FormatProps>) {
    forall a, b :: 0 <= a < b < |props| ==> props[a].format.drmFormat != props[b].format.drmFormat
  }

  /** Entries recorded from index `i` on come from strictly increasing
      format indices, so two of them never share a fourcc code. */
  lemma {:induction false} RecordedFromDistinct(fs: seq<Format>, ycbcr: bool, reports: nat -> FormatReport, allocOk: nat -> bool, i: nat)
    requires i <= |fs| && DistinctCodes(fs)
    ensures DistinctEntryCodes(RecordedFrom(fs, ycbcr, reports, allocOk, i))
    decreases |fs| - i
  {
    if i < |fs| {
      RecordedFromDistinct(fs, ycbcr, reports, allocOk, i + 1);
      if RecordedAt(fs, ycbcr, reports, allocOk, i) {
        LaterCodesDiffer(fs, ycbcr, reports, allocOk, i);
        var rest := RecordedFrom(fs, ycbcr, reports, allocOk, i + 1);
        var rs := [EntryAt(fs, reports, i)] + rest;
        forall a, b | 0 <= a < b < |rs|
          ensures rs[a].format.drmFormat != rs[b].format.drmFormat
        {
          assert rs[b] == rest[b - 1];
          if a == 0 {
            assert rest[b - 1] in rest;
          } else {
            assert rs[a] == rest[a - 1];
          }
        }
        assert RecordedFrom(fs, ycbcr, reports, allocOk, i) == rs;
      }
    }
  }

  /** After querying formats with distinct codes, no code is recorded twice,
      and looking a format up finds exactly the entry its own query
      recorded, or nothing when its query recorded none. */
  lemma QueryFromLookup(fs: seq<Format>, ycbcr: bool, reports: nat -> FormatReport, allocOk: nat -> bool)
    requires DistinctCodes(fs)
    ensures var props := QueryFrom(EmptyTables, fs, ycbcr, reports, allocOk, 0).formatProps;
      && (forall a, b :: 0 <= a < b < |props| ==> props[a].format.drmFormat != props[b].format.drmFormat)
      && forall i :: 0 <= i < |fs| ==>
        FormatPropsFromDrm(props, fs[i].drmFormat) ==
          (if RecordedAt(fs, ycbcr, reports, allocOk, i) then Some(EntryAt(fs, reports, i)) else None)
  {
    QueryFromProps(EmptyTables, fs, ycbcr, reports, allocOk, 0);
    RecordedFromEntries(fs, ycbcr, reports, allocOk, 0);
    var props := QueryFrom(EmptyTables, fs, ycbcr, reports, allocOk, 0).formatProps;
    assert props == RecordedFrom(fs, ycbcr, reports, allocOk, 0);
    RecordedFromDistinct(fs, ycbcr, reports, allocOk, 0);
    forall i | 0 <= i < |fs|
      ensures FormatPropsFromDrm(props, fs[i].drmFormat) ==
        (if RecordedAt(fs, ycbcr, reports, allocOk, i) then Some(EntryAt(fs, reports, i)) else None)
    {
      var found := FormatPropsFromDrm(props, fs[i].drmFormat);
      if found.Some? {
        assert found.value in props;
        var j :| 0 <= j < |fs| && RecordedAt(fs, ycbcr, reports, allocOk, j) && found.value == EntryAt(fs, reports, j);
        assert fs[j].drmFormat == fs[i].drmFormat;
      }
    }
  }

  /** After the device's query loop over the format table, no fourcc code
      is recorded twice, and looking a table format up finds exactly the
      entry its own query recorded, or nothing when its query recorded
      none. */
  lemma QueryAllFormatsRecords(ycbcr: bool, reports: nat -> FormatReport, allocOk: nat -> bool)
    ensures var props := QueryFrom(EmptyTables, Formats, ycbcr, reports, allocOk, 0).formatProps;
      && (forall a, b :: 0 <= a < b < |props| ==> props[a].format.drmFormat != props[b].format.drmFormat)
      && forall i :: 0 <= i < |Formats| ==>
        FormatPropsFromDrm(props, Formats[i].drmFormat) ==
          (if RecordedAt(Formats, ycbcr, reports, allocOk, i) then Some(EntryAt(Formats, reports, i)) else None)
  {
    FormatTableShape();
    QueryFromLookup(Formats, ycbcr, reports, allocOk);
  }

  /** The query loop of `wlr_vk_device_create`: every table format in order. */
  method QueryAllFormats(ycbcr: bool, reports: nat -> FormatReport, allocOk: nat -> bool) returns (tables: DeviceTables)
    ensures tables == QueryFrom(EmptyTables, Formats, ycbcr, reports, allocOk, 0)
    ensures TablesFromFormats(tables, ycbcr)
    ensures |tables.shmFormats| <= |Formats|
  {
    tables := EmptyTables;
    for i := 0 to |Formats|
      invariant QueryFrom(tables, Formats, ycbcr, reports, allocOk, i) == QueryFrom(EmptyTables, Formats, ycbcr, reports, allocOk, 0)
      invariant |tables.formatProps| <= i && |tables.shmFormats| <= i
      invariant forall k :: 0 <= k < |tables.formatProps| ==> tables.formatProps[k].format in Formats
      invariant !ycbcr ==> forall k :: 0 <= k < |tables.formatProps| ==> !tables.formatProps[k].format.ycbcr
    {
      tables := QueryFormat(tables, ycbcr, Formats[i], reports(i), allocOk(i));
    }
    FormatTableShape();
  }

  /** `wlr_vk_device_create`: extension selection (failing without the
      dmabuf trio), the graphics queue family, device creation, the fd
      entry point, then the format queries. */
  method DeviceCreate(requested: seq<string>, env: DeviceEnv) returns (r: Option<Device>)
    requires ReachesQueueSearch(env) ==> exists k :: 0 <= k < |env.queueFamilies| && IsGraphics(env.queueFamilies[k])
    ensures r.None? <==>
      || !ReachesQueueSearch(env)
      || !env.createOk || !env.fdFnFound || !env.tablesAllocOk
    ensures r.Some? ==> DeviceExtensions(r.value.extensions, requested, env.available)
    ensures r.Some? ==> r.value.ycbcr == env.ycbcr
    ensures r.Some? ==>
      && r.value.queueFamily < |env.queueFamilies| && IsGraphics(env.queueFamilies[r.value.queueFamily])
      && forall k :: 0 <= k < r.value.queueFamily ==> !IsGraphics(env.queueFamilies[k])
    ensures r.Some? ==> TablesFromFormats(r.value.tables, r.value.ycbcr)
    ensures r.Some? ==> r.value.tables == QueryFrom(EmptyTables, Formats, env.ycbcr, env.reports, env.queryAllocOk, 0)
  {
    if !env.enumerateOk || |env.available| == 0 || !env.enumerate2Ok || !env.allocOk {
      return None;
    }
    var exts := SelectDeviceExtensions(env.available, requested);
    if exts.None? {
      return None;
    }
    var family := QueueFamily(env.queueFamilies);
    if !env.createOk || !env.fdFnFound || !env.tablesAllocOk {
      return None;
    }
    var tables := QueryAllFormats(env.ycbcr, env.reports, env.queryAllocOk);
    return Some(Device(exts.value, env.ycbcr, family, tables));
  }
}
