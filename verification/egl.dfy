/** The EGL set-up of the backends: error names, the extension entry
    points, the choice of a framebuffer configuration, the initialisation
    chain, and the guarded Wayland-display entry points. Every native call
    is an answer supplied by the caller. */
module Egl {
  import opened Common
  import opened Vk

  // EGL error codes, as returned by eglGetError.
  const EGL_SUCCESS: int := 0x3000
  const EGL_NOT_INITIALIZED: int := 0x3001
  const EGL_BAD_ACCESS: int := 0x3002
  const EGL_BAD_ALLOC: int := 0x3003
  const EGL_BAD_ATTRIBUTE: int := 0x3004
  const EGL_BAD_CONFIG: int := 0x3005
  const EGL_BAD_CONTEXT: int := 0x3006
  const EGL_BAD_CURRENT_SURFACE: int := 0x3007
  const EGL_BAD_DISPLAY: int := 0x3008
  const EGL_BAD_MATCH: int := 0x3009
  const EGL_BAD_NATIVE_PIXMAP: int := 0x300A
  const EGL_BAD_NATIVE_WINDOW: int := 0x300B
  const EGL_BAD_PARAMETER: int := 0x300C
  const EGL_BAD_SURFACE: int := 0x300D
  const EGL_CONTEXT_LOST: int := 0x300E

  /** EGL_PLATFORM_WAYLAND_EXT. */
  const EGL_PLATFORM_WAYLAND: int := 0x31D8

  /** GBM_FORMAT_XRGB8888, the native visual the non-Wayland platforms want. */
  const GBM_FORMAT_XRGB8888: int := DRM_FORMAT_XRGB8888

  const EXT_WL_BIND_WAYLAND_DISPLAY: string := "EGL_WL_bind_wayland_display"
  const EXT_KHR_IMAGE_BASE: string := "EGL_KHR_image_base"

  const UNKNOWN: string := "Unknown"

  /** The error codes `egl_error` names. */
  predicate KnownError(code: int) {
    EGL_SUCCESS <= code <= EGL_CONTEXT_LOST
  }

  /** `egl_error`: the fixed name of each EGL error code, "Unknown" for any
      other value. */
  function EglError(code: int): (name: string)
    ensures name == UNKNOWN <==> !KnownError(code)
    ensures code == EGL_SUCCESS ==> name == "Success"
    ensures code == EGL_BAD_ALLOC ==> name == "Bad alloc"
  {
    if code == EGL_SUCCESS then "Success"
    else if code == EGL_NOT_INITIALIZED then "Not initialized"
    else if code == EGL_BAD_ACCESS then "Bad access"
    else if code == EGL_BAD_ALLOC then "Bad alloc"
    else if code == EGL_BAD_ATTRIBUTE then "Bad attribute"
    else if code == EGL_BAD_CONTEXT then "Bad Context"
    else if code == EGL_BAD_CONFIG then "Bad Config"
    else if code == EGL_BAD_CURRENT_SURFACE then "Bad current surface"
    else if code == EGL_BAD_DISPLAY then "Bad display"
    else if code == EGL_BAD_SURFACE then "Bad surface"
    else if code == EGL_BAD_MATCH then "Bad match"
    else if code == EGL_BAD_PARAMETER then "Bad parameter"
    else if code == EGL_BAD_NATIVE_PIXMAP then "Bad native pixmap"
    else if code == EGL_BAD_NATIVE_WINDOW then "Bad native window"
    else if code == EGL_CONTEXT_LOST then "Context lost"
    else UNKNOWN
  }

  /** Distinct error codes get distinct names, so a logged name identifies
      the code. */
  lemma EglErrorInjective(c1: int, c2: int)
    requires KnownError(c1) && KnownError(c2) && c1 != c2
    ensures EglError(c1) != EglError(c2)
  {
  }

  /** Which of the two platform entry points `eglGetProcAddress` found. */
  datatype PlatformProcs = PlatformProcs(getPlatformDisplay: bool, createPlatformWindowSurface: bool)

  /** `egl_exts` as written: the second check tests the display entry point
      again, so only a missing `eglGetPlatformDisplayEXT` is reported. */
  function EglExtsAsWritten(procs: PlatformProcs): (ok: bool)
    ensures ok <==> procs.getPlatformDisplay
  {
    if !procs.getPlatformDisplay then false
    else if !procs.getPlatformDisplay then false
    else true
  }

  /** `egl_exts` as evidently intended: both entry points must be found. */
  function EglExts(procs: PlatformProcs): (ok: bool)
    ensures ok <==> procs.getPlatformDisplay && procs.createPlatformWindowSurface
  {
    if !procs.getPlatformDisplay then false
    else if !procs.createPlatformWindowSurface then false
    else true
  }

  /** With the window-surface entry point missing, the check as written
      succeeds (leaving a null entry point behind) while the intended check
      fails. */
  lemma EglExtsCounterexample()
    ensures EglExtsAsWritten(PlatformProcs(true, false))
    ensures !EglExts(PlatformProcs(true, false))
  {
  }

  /** A framebuffer configuration and the answer to its NATIVE_VISUAL_ID
      query (nothing when the query fails). */
  datatype Config = Config(handle: nat, visualId: Option<int>)

  /** The answers of `eglGetConfigs` and `eglChooseConfig`; `matched` holds
      the matched configurations in the order returned. */
  datatype ConfigEnv = ConfigEnv(getConfigsOk: bool, count: int, chooseOk: bool, matched: seq<Config>)

  /** A configuration suits the non-Wayland platforms when its visual query
      succeeds with XRGB8888. */
  predicate IsXrgb(c: Config) {
    c.visualId == Some(GBM_FORMAT_XRGB8888)
  }

  /** The first configuration of `matched` whose visual is XRGB8888. */
  function FirstXrgb(matched: seq<Config>): (r: Option<Config>)
    ensures r.None? <==> forall k :: 0 <= k < |matched| ==> !IsXrgb(matched[k])
    ensures r.Some? ==> exists i :: (0 <= i < |matched| && matched[i] == r.value && IsXrgb(r.value)
      && forall k :: 0 <= k < i ==> !IsXrgb(matched[k]))
  {
    if |matched| == 0 then None
    else if IsXrgb(matched[0]) then Some(matched[0])
    else
      var r := FirstXrgb(matched[1..]);
      assert forall k :: 1 <= k < |matched| ==> matched[k] == matched[1..][k - 1];
      r
  }

  /** The configuration `egl_get_config` settles on: nothing without
      configurations or when choosing fails, the first matched one on the
      Wayland platform, the first XRGB8888 one elsewhere. */
  function ChosenConfig(platform: int, env: ConfigEnv): Option<Config> {
    if !env.getConfigsOk || env.count == 0 || !env.chooseOk then None
    else if platform == EGL_PLATFORM_WAYLAND then (if |env.matched| == 0 then None else Some(env.matched[0]))
    else FirstXrgb(env.matched)
  }

  /** `egl_get_config`: nothing without configurations or when choosing
      fails; on the Wayland platform the first matched configuration; on
      others the first whose visual is XRGB8888, skipping those whose query
      fails. */
  method EglGetConfig(platform: int, env: ConfigEnv) returns (r: Option<Config>)
    ensures r == ChosenConfig(platform, env)
    ensures !env.getConfigsOk || env.count == 0 || !env.chooseOk ==> r.None?
    ensures r.Some? ==> r.value in env.matched
    ensures env.getConfigsOk && env.count != 0 && env.chooseOk && platform == EGL_PLATFORM_WAYLAND ==>
      (r.Some? <==> |env.matched| > 0) && (r.Some? ==> r.value == env.matched[0])
    ensures platform != EGL_PLATFORM_WAYLAND && r.Some? ==>
      IsXrgb(r.value) &&
      exists i :: 0 <= i < |env.matched| && env.matched[i] == r.value &&
        forall k :: 0 <= k < i ==> !IsXrgb(env.matched[k])
    ensures env.getConfigsOk && env.count != 0 && env.chooseOk && platform != EGL_PLATFORM_WAYLAND ==>
      (r.None? <==> forall k :: 0 <= k < |env.matched| ==> !IsXrgb(env.matched[k]))
  {
    if !env.getConfigsOk || env.count == 0 {
      return None;
    }
    if !env.chooseOk {
      return None;
    }
    for i := 0 to |env.matched|
      invariant platform != EGL_PLATFORM_WAYLAND || i == 0
      invariant forall k :: 0 <= k < i ==> !IsXrgb(env.matched[k])
    {
      if platform == EGL_PLATFORM_WAYLAND {
        return Some(env.matched[i]);
      }
      var visual := env.matched[i].visualId;
      if visual.None? {
        continue;
      }
      if visual.value == GBM_FORMAT_XRGB8888 {
        return Some(env.matched[i]);
      }
    }
    return None;
  }

  /** `sub` occurs in `s` at position `i`. */
  predicate OccursAt(s: string, sub: string, i: nat) {
    i + |sub| <= |s| && s[i..i + |sub|] == sub
  }

  /** `strstr(s, sub) != NULL`. */
  predicate Contains(s: string, sub: string) {
    exists i :: 0 <= i <= |s| && OccursAt(s, sub, i)
  }

  /** `strstr`: the first position at which `sub` occurs in `s`, or nothing. */
  method StrStr(s: string, sub: string) returns (r: Option<nat>)
    ensures r.None? <==> !Contains(s, sub)
    ensures r.Some? ==> OccursAt(s, sub, r.value) && forall k :: 0 <= k < r.value ==> !OccursAt(s, sub, k)
  {
    var i := 0;
    while i + |sub| <= |s|
      invariant forall k :: 0 <= k < i ==> !OccursAt(s, sub, k)
    {
      if s[i..i + |sub|] == sub {
        assert OccursAt(s, sub, i);
        return Some(i);
      }
      i := i + 1;
    }
    return None;
  }

  /** Which of the five EGL entry points the initialisation loaded. */
  datatype EglApi = EglApi(
    createImage: bool,
    destroyImage: bool,
    queryWaylandBuffer: bool,
    bindWaylandDisplay: bool,
    unbindWaylandDisplay: bool)

  /** The answers of the initialisation chain. */
  datatype EglEnv = EglEnv(
    procs: PlatformProcs,
    allocOk: bool,
    bindApiOk: bool,
    displayOk: bool,
    initializeOk: bool,
    configs: ConfigEnv,
    contextOk: bool,
    extensions: string,
    api: EglApi)

  /** An initialised EGL state; `wlDisplay` is the Wayland display last
      recorded by `BindDisplay`. */
  datatype EglState = EglState(config: Config, api: EglApi, extensions: string, wlDisplay: Option<nat>)

  /** `wlr_egl_init`: the platform entry points (checked as written, so a
      missing window-surface entry point passes), the API table, binding the
      GLES API, the display, its initialisation, the configuration
      `egl_get_config` chooses, a context, and both required extensions in
      the EGL extension string. It succeeds exactly when every step does. */
  method EglInit(platform: int, env: EglEnv) returns (r: Option<EglState>)
    ensures r.Some? <==>
      && EglExtsAsWritten(env.procs) && env.allocOk && env.bindApiOk && env.displayOk && env.initializeOk
      && ChosenConfig(platform, env.configs).Some? && env.contextOk
      && Contains(env.extensions, EXT_WL_BIND_WAYLAND_DISPLAY) && Contains(env.extensions, EXT_KHR_IMAGE_BASE)
    ensures r.Some? ==> r.value == EglState(ChosenConfig(platform, env.configs).value, env.api, env.extensions, None)
    ensures r.Some? ==> r.value.config in env.configs.matched
    ensures r.Some? && platform != EGL_PLATFORM_WAYLAND ==> IsXrgb(r.value.config)
    ensures !env.procs.getPlatformDisplay ==> r.None?
  {
    if !EglExtsAsWritten(env.procs) {
      return None;
    }
    if !env.allocOk || !env.bindApiOk || !env.displayOk || !env.initializeOk {
      return None;
    }
    var config := EglGetConfig(platform, env.configs);
    if config.None? || !env.contextOk {
      return None;
    }
    var wl := StrStr(env.extensions, EXT_WL_BIND_WAYLAND_DISPLAY);
    var image := StrStr(env.extensions, EXT_KHR_IMAGE_BASE);
    if wl.None? || image.None? {
      return None;
    }
    return Some(EglState(config.value, env.api, env.extensions, None));
  }

  /** What a guarded entry point did: refused because the guard's entry
      point is missing, called a null entry point, or called it and got an
      answer. */
  datatype Call<T> = Refused | NullCall | Called(answer: T)

  /** `wlr_egl_bind_display` as written: the guard tests the query entry
      point, the display is recorded, then the bind entry point is called. */
  function BindDisplayAsWritten(egl: EglState, display: nat, bindOk: bool): (r: (EglState, Call<bool>))
    ensures r.1.Refused? <==> !egl.api.queryWaylandBuffer
    ensures r.1.Refused? ==> r.0 == egl
    ensures !r.1.Refused? ==> r.0 == egl.(wlDisplay := Some(display))
    ensures r.1.NullCall? <==> egl.api.queryWaylandBuffer && !egl.api.bindWaylandDisplay
  {
    if !egl.api.queryWaylandBuffer then (egl, Refused)
    else
      var recorded := egl.(wlDisplay := Some(display));
      if !egl.api.bindWaylandDisplay then (recorded, NullCall) else (recorded, Called(bindOk))
  }

  /** `wlr_egl_bind_display` with the guard also covering the entry point it
      calls: it never calls a null entry point, refuses when either the query
      or the bind entry point is missing, and otherwise records the display
      before binding. */
  function BindDisplay(egl: EglState, display: nat, bindOk: bool): (r: (EglState, Call<bool>))
    ensures !r.1.NullCall?
    ensures r.1.Refused? <==> !egl.api.queryWaylandBuffer || !egl.api.bindWaylandDisplay
    ensures r.1.Refused? ==> r.0 == egl
    ensures r.1.Called? ==> r.0 == egl.(wlDisplay := Some(display)) && r.1.answer == bindOk
  {
    if !egl.api.queryWaylandBuffer || !egl.api.bindWaylandDisplay then (egl, Refused)
    else (egl.(wlDisplay := Some(display)), Called(bindOk))
  }

  /** The guarded bind differs from the bind as written only where the latter
      calls a null entry point. */
  lemma BindDisplayAgrees(egl: EglState, display: nat, bindOk: bool)
    ensures !BindDisplayAsWritten(egl, display, bindOk).1.NullCall? <==>
      BindDisplay(egl, display, bindOk) == BindDisplayAsWritten(egl, display, bindOk)
  {
  }

  /** A state that loaded the query entry point but not the bind entry point
      makes the bind as written call a null pointer; the guarded bind
      refuses. */
  lemma BindDisplayCounterexample(egl: EglState, display: nat)
    requires egl.api == EglApi(true, true, true, false, true)
    ensures BindDisplayAsWritten(egl, display, true).1 == NullCall
    ensures BindDisplay(egl, display, true).1 == Refused
  {
  }

  /** `wlr_egl_query_buffer`: refused without the query entry point,
      otherwise the entry point's answer. */
  function QueryBuffer(egl: EglState, answer: bool): (r: Call<bool>)
    ensures r.Refused? <==> !egl.api.queryWaylandBuffer
    ensures !r.NullCall?
    ensures r.Called? ==> r.answer == answer
  {
    if !egl.api.queryWaylandBuffer then Refused else Called(answer)
  }
}
