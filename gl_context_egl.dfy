/**
  * The EGL graphics context of the GBM windowing backend.  It owns four
  * driver handles (display, config, context, surface), each with a "none"
  * sentinel, and drives them through create, bind, detach and destroy.
  *
  * The driver is an oracle: every value an EGL call returns is an argument
  * of the operation that makes the call, and every call is appended to a
  * ghost trace.  Each operation is given twice: as a pure step function on a
  * `Handles` snapshot, whose contract states what the operation guarantees,
  * and as a method of the class `GLContextEGL`, proved to move its fields
  * exactly as the step function says.
  */
module GbmWindowing {
  import opened Wrappers
  import opened Egl
  import opened CString
  import opened ConfigAttribs

  /** The four handles a context holds. */
  datatype Handles = Handles(display: Display, surface: Surface, context: Context, config: Config)

  /** What an operation that reports success does: the handles afterwards, the driver calls it
      made in order, and what it returns. */
  datatype Outcome = Outcome(after: Handles, calls: seq<Call>, ok: bool)

  /** What an operation without a result does. */
  datatype Effect = Effect(after: Handles, calls: seq<Call>)

  /** What the driver answers to the calls CreateDisplay makes. */
  datatype DisplayReplies = DisplayReplies(
    clientExtensions: Option<string>,  // eglQueryString(EGL_NO_DISPLAY, EGL_EXTENSIONS): None is NULL,
                                       // otherwise the characters before the terminating NUL
    procFound: bool,                   // eglGetProcAddress("eglGetPlatformDisplayEXT") is non-NULL
    platformDisplay: Display,          // what eglGetPlatformDisplayEXT returns
    genericDisplay: Display,           // what eglGetDisplay returns
    initialized: bool,                 // what eglInitialize returns
    configChosen: bool,                // what eglChooseConfig returns
    chosenConfig: Config,              // the config held after eglChooseConfig (any value the driver leaves)
    numConfigs: EGLint)                // what eglChooseConfig writes through its count pointer

  const PlatformDisplayProc: string := "eglGetPlatformDisplayEXT"
  const PlatformBaseExtension: string := "EGL_EXT_platform_base"
  const PlatformGbmExtension: string := "EGL_KHR_platform_gbm"
  const ContextAttributes: seq<EGLint> := [ContextClientVersion, 2, AttribListEnd]

  /** The handles of a freshly constructed context. */
  const Initial: Handles := Handles(NoDisplay, NoSurface, NoContext, NullConfig)

  /** eglMakeCurrent with no surfaces and no context: nothing is current any more. */
  function Unbind(dpy: Display): Call {
    MakeCurrent(dpy, NoSurface, NoSurface, NoContext)
  }

  /** The position of a teardown call on the handles `h` in teardown order (release the context,
      unbind, release the surface, terminate the display); None for any other call. */
  function TeardownRank(c: Call, h: Handles): Option<nat> {
    if c == DestroyContext(h.display, h.context) then Some(0)
    else if c == Unbind(h.display) then Some(1)
    else if c == DestroySurface(h.display, h.surface) then Some(2)
    else if c == Terminate(h.display) then Some(3)
    else None
  }

  /** `calls` are teardown calls on `h` only, each of a later rank than the one before, so in
      teardown order and none of them twice. */
  predicate InTeardownOrder(calls: seq<Call>, h: Handles)
    decreases |calls|
  {
    calls == [] ||
    (TeardownRank(calls[0], h).Some? &&
     (|calls| == 1 ||
      (TeardownRank(calls[1], h).Some? &&
       TeardownRank(calls[0], h).value < TeardownRank(calls[1], h).value &&
       InTeardownOrder(calls[1..], h))))
  }

  // ---------------------------------------------------------------------------
  // CreateDisplay

  /** The extension probe: the platform display function is looked up only when the EGL headers
      declare both extensions, no display is held, and the client extension string is non-NULL
      and names both extensions. */
  function UsePlatformDisplay(headers: bool, display: Display, clientExtensions: Option<string>): (r: bool)
    ensures r <==> headers && display == NoDisplay && clientExtensions.Some? &&
                   Contains(clientExtensions.value, PlatformBaseExtension) &&
                   Contains(clientExtensions.value, PlatformGbmExtension)
  {
    headers && display == NoDisplay && clientExtensions.Some? &&
    StrStr(clientExtensions.value, PlatformBaseExtension).Some? &&
    StrStr(clientExtensions.value, PlatformGbmExtension).Some?
  }

  /** Where a call stands in display acquisition: probe, lookup, platform display, generic
      display; 4 for any other call. */
  function AcquireRank(c: Call, native: NativeDisplay): nat {
    if c == QueryString(NoDisplay, Extensions) then 0
    else if c == GetProcAddress(PlatformDisplayProc) then 1
    else if c == GetPlatformDisplay(PlatformGbm, native) then 2
    else if c == GetDisplay(native) then 3
    else 4
  }

  /** Where a call on display `d` stands after acquisition: initialise, bind the API, choose the
      config, query the display's extensions; 4 for any other call. */
  function SetupRank(c: Call, d: Display, api: EGLint, attribs: seq<EGLint>): nat {
    if c == Initialize(d) then 0
    else if c == BindApi(api) then 1
    else if c == ChooseConfig(d, attribs, 1) then 2
    else if c == QueryString(d, Extensions) then 3
    else 4
  }

  /** Display acquisition: query the client extensions, try the GBM platform display, and fall
      back to eglGetDisplay while no display is held. */
  function AcquireDisplay(h: Handles, native: NativeDisplay, headers: bool, rep: DisplayReplies): (r: Effect)
    ensures r.after.surface == h.surface && r.after.context == h.context && r.after.config == h.config
  {
    var probe := [QueryString(NoDisplay, Extensions)];
    var platform := UsePlatformDisplay(headers, h.display, rep.clientExtensions);
    var lookup := if platform then [GetProcAddress(PlatformDisplayProc)] else [];
    var viaPlatform := platform && rep.procFound;
    var platformCall := if viaPlatform then [GetPlatformDisplay(PlatformGbm, native)] else [];
    var d := if viaPlatform then rep.platformDisplay else h.display;
    var generic := if d == NoDisplay then [GetDisplay(native)] else [];
    Effect(h.(display := if d == NoDisplay then rep.genericDisplay else d),
           probe + lookup + platformCall + generic)
  }

  /** The acquisition paths: the platform display is tried exactly when the probe allows it,
      the generic display exactly when no display is held after that. */
  lemma AcquireDisplayPaths(h: Handles, native: NativeDisplay, headers: bool, rep: DisplayReplies, r: Effect)
    requires r == AcquireDisplay(h, native, headers, rep)
    ensures |r.calls| > 0 && r.calls[0] == QueryString(NoDisplay, Extensions)
    // only acquisition calls, each of a later rank than the one before: the probe comes first,
    // the lookup before the platform display, the platform display before the generic one
    ensures forall i :: 0 <= i < |r.calls| ==> AcquireRank(r.calls[i], native) < 4
    ensures forall i, j :: 0 <= i < j < |r.calls| ==>
              AcquireRank(r.calls[i], native) < AcquireRank(r.calls[j], native)
    // a display already held is kept and neither path is tried
    ensures h.display != NoDisplay ==> r.after == h && r.calls == [QueryString(NoDisplay, Extensions)]
    // the platform path is tried exactly when the probe says so
    ensures GetProcAddress(PlatformDisplayProc) in r.calls <==>
              UsePlatformDisplay(headers, h.display, rep.clientExtensions)
    ensures GetPlatformDisplay(PlatformGbm, native) in r.calls <==>
              UsePlatformDisplay(headers, h.display, rep.clientExtensions) && rep.procFound
    // the generic path is taken exactly when the platform path left no display
    ensures GetDisplay(native) in r.calls <==>
              h.display == NoDisplay &&
              !(UsePlatformDisplay(headers, h.display, rep.clientExtensions) && rep.procFound &&
                rep.platformDisplay != NoDisplay)
    ensures r.after.display ==
              if GetDisplay(native) in r.calls then rep.genericDisplay
              else if GetPlatformDisplay(PlatformGbm, native) in r.calls then rep.platformDisplay
              else h.display
  {
  }

  /** CreateDisplay: acquire and initialise a display, bind the rendering API and choose one config. */
  function CreateDisplayStep(h: Handles, native: NativeDisplay, renderable: EGLint, api: EGLint,
                             solver: DirtyRegionSolver, headers: bool, rep: DisplayReplies): (r: Outcome)
    ensures r.after.surface == h.surface && r.after.context == h.context
    ensures AcquireDisplay(h, native, headers, rep).calls <= r.calls
  {
    var attribs := ConfigAttributes(solver, renderable);
    var a := AcquireDisplay(h, native, headers, rep);
    var d := a.after.display;
    if d == NoDisplay then Outcome(a.after, a.calls, false)
    else
      var init := a.calls + [Initialize(d)];
      if !rep.initialized then Outcome(a.after, init, false)
      else
        var chosen := init + [BindApi(api), ChooseConfig(d, attribs, 1)];
        var after := a.after.(config := rep.chosenConfig);
        if !rep.configChosen || rep.numConfigs <= 0 then Outcome(after, chosen, false)
        else Outcome(after, chosen + [QueryString(d, Extensions)], true)
  }

  /** The failure ladder of CreateDisplay: it reports success exactly when a display was
      obtained, initialised, and one config chosen; a failed step skips every later one. */
  lemma CreateDisplayLadder(h: Handles, native: NativeDisplay, renderable: EGLint, api: EGLint,
                            solver: DirtyRegionSolver, headers: bool, rep: DisplayReplies, r: Outcome)
    requires r == CreateDisplayStep(h, native, renderable, api, solver, headers, rep)
    ensures r.after.display == AcquireDisplay(h, native, headers, rep).after.display
    // true exactly when every step succeeded
    ensures r.ok <==> r.after.display != NoDisplay && rep.initialized && rep.configChosen && rep.numConfigs > 0
    // a failed step skips everything after it
    ensures Initialize(r.after.display) in r.calls <==> r.after.display != NoDisplay
    ensures BindApi(api) in r.calls <==> r.after.display != NoDisplay && rep.initialized
    ensures ChooseConfig(r.after.display, ConfigAttributes(solver, renderable), 1) in r.calls <==>
              r.after.display != NoDisplay && rep.initialized
    ensures r.after.display != NoDisplay ==> (QueryString(r.after.display, Extensions) in r.calls <==> r.ok)
    // the config is written only by eglChooseConfig
    ensures r.after.config == if ChooseConfig(r.after.display, ConfigAttributes(solver, renderable), 1) in r.calls
                              then rep.chosenConfig else h.config
  {
  }

  /** The order of CreateDisplay: acquisition comes first; after it only setup calls on the
      acquired display, each of a later rank than the one before, so initialise, bind the API,
      choose the config and query the display's extensions, none of them twice. */
  lemma CreateDisplayOrder(h: Handles, native: NativeDisplay, renderable: EGLint, api: EGLint,
                           solver: DirtyRegionSolver, headers: bool, rep: DisplayReplies, r: Outcome)
    requires r == CreateDisplayStep(h, native, renderable, api, solver, headers, rep)
    ensures forall i :: |AcquireDisplay(h, native, headers, rep).calls| <= i < |r.calls| ==>
              SetupRank(r.calls[i], r.after.display, api, ConfigAttributes(solver, renderable)) < 4
    ensures forall i, j :: |AcquireDisplay(h, native, headers, rep).calls| <= i < j < |r.calls| ==>
              SetupRank(r.calls[i], r.after.display, api, ConfigAttributes(solver, renderable)) <
              SetupRank(r.calls[j], r.after.display, api, ConfigAttributes(solver, renderable))
  {
    var a := AcquireDisplay(h, native, headers, rep);
    var d := a.after.display;
    var attribs := ConfigAttributes(solver, renderable);
    if d == NoDisplay {
      assert r.calls == a.calls;
    } else if !rep.initialized {
      assert r.calls == a.calls + [Initialize(d)];
    } else if !rep.configChosen || rep.numConfigs <= 0 {
      assert r.calls == a.calls + [Initialize(d), BindApi(api), ChooseConfig(d, attribs, 1)];
    } else {
      assert r.calls == a.calls + [Initialize(d), BindApi(api), ChooseConfig(d, attribs, 1), QueryString(d, Extensions)];
    }
  }

  // ---------------------------------------------------------------------------
  // CreateContext, BindContext, SurfaceAttrib, CreateSurface

  /** CreateContext: create a client-version-2 context on the held display and config unless one
      is held already. `created` is what eglCreateContext returns. */
  function CreateContextStep(h: Handles, created: Context): (r: Outcome)
    ensures r.after.display == h.display && r.after.surface == h.surface && r.after.config == h.config
    // a held context is kept and the driver is not called
    ensures h.context != NoContext ==> r.after == h && r.calls == [] && r.ok
    ensures h.context == NoContext ==>
              r.calls == [CreateContext(h.display, h.config, NoContext, ContextAttributes)] &&
              r.after.context == created
    // success means: a context is held afterwards
    ensures r.ok <==> r.after.context != NoContext
  {
    if h.context != NoContext then Outcome(h, [], true)
    else Outcome(h.(context := created),
                 [CreateContext(h.display, h.config, NoContext, ContextAttributes)],
                 created != NoContext)
  }

  /** BindContext: make the held context current on the held surface, for drawing and reading.
      `accepted` is what eglMakeCurrent returns. */
  function BindContextStep(h: Handles, accepted: bool): (r: Outcome)
    ensures r.after == h
    ensures r.calls == [MakeCurrent(h.display, h.surface, h.surface, h.context)]
    ensures r.ok == accepted
  {
    Outcome(h, [MakeCurrent(h.display, h.surface, h.surface, h.context)], accepted)
  }

  /** SurfaceAttrib: ask for the back buffer to be preserved across swaps when the dirty-region
      solver needs it. `attribSet` is what eglSurfaceAttrib returns; it is only logged. */
  function SurfaceAttribStep(h: Handles, solver: DirtyRegionSolver, attribSet: bool): (r: Outcome)
    ensures r.after == h
    // false only for a preserving solver without a display or a surface
    ensures !r.ok <==> PreservesBuffer(solver) && (h.display == NoDisplay || h.surface == NoSurface)
    ensures r.calls == if PreservesBuffer(solver) && r.ok
                       then [SurfaceAttrib(h.display, h.surface, SwapBehavior, BufferPreserved)]
                       else []
  {
    if PreservesBuffer(solver) then
      if h.display == NoDisplay || h.surface == NoSurface then Outcome(h, [], false)
      else
        // a refused attribute (attribSet false) is logged at debug level and otherwise ignored
        Outcome(h, [SurfaceAttrib(h.display, h.surface, SwapBehavior, BufferPreserved)], true)
    else Outcome(h, [], true)
  }

  /** CreateSurface: create a window surface for `window` on the held display and config,
      replacing whatever surface handle was held. `created` is what eglCreateWindowSurface returns. */
  function CreateSurfaceStep(h: Handles, window: NativeWindow, created: Surface): (r: Outcome)
    ensures r.after == h.(surface := created)
    ensures r.ok <==> created != NoSurface
    ensures |r.calls| > 0 && r.calls[0] == CreateWindowSurface(h.display, h.config, window)
    // on failure the driver's error code is fetched for the log
    ensures r.calls[1..] == if r.ok then [] else [GetError]
  {
    var create := [CreateWindowSurface(h.display, h.config, window)];
    if created == NoSurface then Outcome(h.(surface := created), create + [GetError], false)
    else Outcome(h.(surface := created), create, true)
  }

  // ---------------------------------------------------------------------------
  // Destroy, Detach

  /** Destroy: release the context, then the surface, then the display, each only if held. */
  function DestroyStep(h: Handles): (r: Effect)
    ensures r.after.display == NoDisplay && r.after.surface == NoSurface && r.after.context == NoContext
    ensures r.after.config == h.config
    ensures DestroyContext(h.display, h.context) in r.calls <==> h.context != NoContext
    ensures Unbind(h.display) in r.calls <==> h.context != NoContext
    ensures DestroySurface(h.display, h.surface) in r.calls <==> h.surface != NoSurface
    ensures Terminate(h.display) in r.calls <==> h.display != NoDisplay
  {
    var releaseContext := if h.context != NoContext
                          then [DestroyContext(h.display, h.context), Unbind(h.display)] else [];
    var releaseSurface := if h.surface != NoSurface then [DestroySurface(h.display, h.surface)] else [];
    var terminate := if h.display != NoDisplay then [Terminate(h.display)] else [];
    Effect(h.(display := NoDisplay, surface := NoSurface, context := NoContext),
           releaseContext + releaseSurface + terminate)
  }

  /** Detach: unbind the held context and release the surface, keeping context and display. */
  function DetachStep(h: Handles): (r: Effect)
    ensures r.after == h.(surface := NoSurface)
    ensures forall c :: c in r.calls ==> !c.DestroyContext? && !c.Terminate?
    ensures Unbind(h.display) in r.calls <==> h.context != NoContext
    ensures DestroySurface(h.display, h.surface) in r.calls <==> h.surface != NoSurface
  {
    var unbind := if h.context != NoContext then [Unbind(h.display)] else [];
    var releaseSurface := if h.surface != NoSurface then [DestroySurface(h.display, h.surface)] else [];
    Effect(h.(surface := NoSurface), unbind + releaseSurface)
  }

  /** The four teardown calls on `h` take the four ranks in turn. */
  lemma TeardownRanks(h: Handles)
    ensures TeardownRank(DestroyContext(h.display, h.context), h) == Some(0)
    ensures TeardownRank(Unbind(h.display), h) == Some(1)
    ensures TeardownRank(DestroySurface(h.display, h.surface), h) == Some(2)
    ensures TeardownRank(Terminate(h.display), h) == Some(3)
  {
  }

  /** A teardown call of lower rank in front of calls in teardown order keeps the order. */
  lemma InTeardownOrderCons(c: Call, rest: seq<Call>, h: Handles)
    requires TeardownRank(c, h).Some? && InTeardownOrder(rest, h)
    requires rest != [] ==> TeardownRank(rest[0], h).Some? &&
                            TeardownRank(c, h).value < TeardownRank(rest[0], h).value
    ensures InTeardownOrder([c] + rest, h)
  {
  }

  /** Destroy releases in teardown order and releases nothing twice. */
  lemma DestroyInTeardownOrder(h: Handles)
    ensures InTeardownOrder(DestroyStep(h).calls, h)
  {
    TeardownRanks(h);
    var d := h.display;
    var terminate := if d != NoDisplay then [Terminate(d)] else [];
    var fromSurface := (if h.surface != NoSurface then [DestroySurface(d, h.surface)] else []) + terminate;
    var fromUnbind := (if h.context != NoContext then [Unbind(d)] else []) + fromSurface;
    if h.surface != NoSurface { InTeardownOrderCons(DestroySurface(d, h.surface), terminate, h); }
    if h.context != NoContext {
      InTeardownOrderCons(Unbind(d), fromSurface, h);
      InTeardownOrderCons(DestroyContext(d, h.context), fromUnbind, h);
      assert DestroyStep(h).calls == [DestroyContext(d, h.context)] + fromUnbind;
    } else {
      assert DestroyStep(h).calls == fromSurface;
    }
  }

  /** Detach unbinds before it releases the surface. */
  lemma DetachInTeardownOrder(h: Handles)
    ensures InTeardownOrder(DetachStep(h).calls, h)
  {
  }

  // ---------------------------------------------------------------------------
  // SetVSync, SwapBuffers

  /** SetVSync: swap interval 1 when enabled, 0 when not. `accepted` is what eglSwapInterval returns. */
  function SetVSyncStep(h: Handles, enable: bool, accepted: bool): (r: Outcome)
    ensures r.after == h
    ensures r.calls == [SwapInterval(h.display, if enable then 1 else 0)]
    ensures r.ok == accepted
  {
    Outcome(h, [SwapInterval(h.display, if enable then 1 else 0)], accepted)
  }

  /** SwapBuffers: present the held surface; without a display or a surface, do nothing. */
  function SwapBuffersStep(h: Handles): (r: Effect)
    ensures r.after == h
    ensures r.calls == [] <==> h.display == NoDisplay || h.surface == NoSurface
    ensures r.calls != [] ==> r.calls == [SwapBuffers(h.display, h.surface)]
  {
    if h.display == NoDisplay || h.surface == NoSurface then Effect(h, [])
    else Effect(h, [SwapBuffers(h.display, h.surface)])
  }

  // ---------------------------------------------------------------------------
  // The context object

  /** The context object: four handle fields, updated in place, and the ghost record of every
      driver call it has made. Each method is the step function of the same name, applied to
      the fields, with its calls appended to `trace`. */
  class GLContextEGL {
    var display: Display
    var surface: Surface
    var context: Context
    var config: Config
    ghost var trace: seq<Call>

    /** The handles currently held. */
    function Current(): Handles
      reads this
    {
      Handles(display, surface, context, config)
    }

    constructor ()
      ensures Current() == Initial && trace == []
    {
      display := NoDisplay;
      surface := NoSurface;
      context := NoContext;
      config := NullConfig;
      trace := [];
    }

    /** The display acquisition steps of CreateDisplay. */
    method ObtainDisplay(native: NativeDisplay, headers: bool, rep: DisplayReplies)
      modifies this
      ensures var e := AcquireDisplay(old(Current()), native, headers, rep);
              Current() == e.after && trace == old(trace) + e.calls
    {
      // the calls of the acquisition steps, appended to the trace once they are done
      ghost var acquire := [QueryString(NoDisplay, Extensions)];
      // the probe stands for the compile-time gate and the strstr tests
      if UsePlatformDisplay(headers, display, rep.clientExtensions) {
        acquire := acquire + [GetProcAddress(PlatformDisplayProc)];
        if rep.procFound {
          acquire := acquire + [GetPlatformDisplay(PlatformGbm, native)];
          display := rep.platformDisplay;
        }
      }
      if display == NoDisplay {
        acquire := acquire + [GetDisplay(native)];
        display := rep.genericDisplay;
      }
      trace := trace + acquire;
    }

    method CreateDisplay(native: NativeDisplay, renderable: EGLint, api: EGLint,
                         solver: DirtyRegionSolver, headers: bool, rep: DisplayReplies)
      returns (ok: bool)
      modifies this
      ensures var o := CreateDisplayStep(old(Current()), native, renderable, api, solver, headers, rep);
              Current() == o.after && trace == old(trace) + o.calls && ok == o.ok
    {
      var attribs := ConfigAttributes(solver, renderable);
      ObtainDisplay(native, headers, rep);

      if display == NoDisplay {
        return false;
      }

      trace := trace + [Initialize(display)];
      if !rep.initialized {
        return false;
      }

      trace := trace + [BindApi(api), ChooseConfig(display, attribs, 1)];
      config := rep.chosenConfig;
      var numConfigs := rep.numConfigs;
      if !rep.configChosen {
        return false;
      }
      if numConfigs <= 0 {
        return false;
      }

      trace := trace + [QueryString(display, Extensions)];
      return true;
    }

    method CreateContext(created: Context) returns (ok: bool)
      modifies this
      ensures var o := CreateContextStep(old(Current()), created);
              Current() == o.after && trace == old(trace) + o.calls && ok == o.ok
    {
      if context == NoContext {
        trace := trace + [Call.CreateContext(display, config, NoContext, ContextAttributes)];
        context := created;
      }
      if context == NoContext {
        return false;
      }
      return true;
    }

    method BindContext(accepted: bool) returns (ok: bool)
      modifies this
      ensures var o := BindContextStep(old(Current()), accepted);
              Current() == o.after && trace == old(trace) + o.calls && ok == o.ok
    {
      trace := trace + [MakeCurrent(display, surface, surface, context)];
      if !accepted {
        return false;
      }
      return true;
    }

    method SurfaceAttrib(solver: DirtyRegionSolver, attribSet: bool) returns (ok: bool)
      modifies this
      ensures var o := SurfaceAttribStep(old(Current()), solver, attribSet);
              Current() == o.after && trace == old(trace) + o.calls && ok == o.ok
    {
      if PreservesBuffer(solver) {
        if display == NoDisplay || surface == NoSurface {
          return false;
        }
        trace := trace + [Call.SurfaceAttrib(display, surface, SwapBehavior, BufferPreserved)];
        // a refused attribute is logged and otherwise ignored
      }
      return true;
    }

    method CreateSurface(window: NativeWindow, created: Surface) returns (ok: bool)
      modifies this
      ensures var o := CreateSurfaceStep(old(Current()), window, created);
              Current() == o.after && trace == old(trace) + o.calls && ok == o.ok
    {
      trace := trace + [CreateWindowSurface(display, config, window)];
      surface := created;
      if surface == NoSurface {
        trace := trace + [GetError];
        return false;
      }
      return true;
    }

    method Destroy()
      modifies this
      ensures var e := DestroyStep(old(Current()));
              Current() == e.after && trace == old(trace) + e.calls
      ensures display == NoDisplay && surface == NoSurface && context == NoContext
      ensures config == old(config)
    {
      if context != NoContext {
        trace := trace + [DestroyContext(display, context)];
        trace := trace + [Unbind(display)];
        context := NoContext;
      }
      if surface != NoSurface {
        trace := trace + [DestroySurface(display, surface)];
        surface := NoSurface;
      }
      if display != NoDisplay {
        trace := trace + [Terminate(display)];
        display := NoDisplay;
      }
    }

    method Detach()
      modifies this
      ensures var e := DetachStep(old(Current()));
              Current() == e.after && trace == old(trace) + e.calls
      ensures display == old(display) && context == old(context) && config == old(config)
      ensures surface == NoSurface
    {
      if context != NoContext {
        trace := trace + [Unbind(display)];
      }
      if surface != NoSurface {
        trace := trace + [DestroySurface(display, surface)];
        surface := NoSurface;
      }
    }

    method SetVSync(enable: bool, accepted: bool) returns (ok: bool)
      modifies this
      ensures var o := SetVSyncStep(old(Current()), enable, accepted);
              Current() == o.after && trace == old(trace) + o.calls && ok == o.ok
    {
      trace := trace + [SwapInterval(display, if enable then 1 else 0)];
      if !accepted {
        return false;
      }
      return true;
    }

    method SwapBuffers()
      modifies this
      ensures var e := SwapBuffersStep(old(Current()));
              Current() == e.after && trace == old(trace) + e.calls
      ensures Current() == old(Current())
    {
      if display == NoDisplay || surface == NoSurface {
        return;
      }
      trace := trace + [Call.SwapBuffers(display, surface)];
    }
  }
}
