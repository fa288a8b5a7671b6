# GBM EGL graphics context, modelled in Dafny

This project models `CGLContextEGL`, the EGL context of Kodi's GBM windowing
backend (`xbmc/windowing/gbm/GLContextEGL.cpp`). The context owns four EGL
handles: display, config, context and surface. Each handle has a "none"
sentinel. The context drives them through a small lifecycle:

- `CreateDisplay` probes the client extensions, acquires a display by the GBM
  platform path or the generic path, initialises it, binds the API and chooses
  one config;
- `CreateContext`, `CreateSurface` and `BindContext` create and bind;
- `SurfaceAttrib`, `SetVSync` and `SwapBuffers` serve the render loop;
- `Detach` and `Destroy` tear down.

The EGL driver is an oracle. Every value an EGL call returns is an argument of
the operation that makes the call. Every call is recorded, with its
arguments, in a trace of `Egl.Call` events.

Layout:

- `egl.dfy` (module `Egl`): EGL scalar types, handles and sentinels, the
  constants the context passes (values of Khronos `egl.h`), and the `Call`
  events.
- `cstring.dfy` (module `CString`): `strstr` as a left-to-right search,
  proved against a substring predicate.
- `config_attribs.dfy` (module `ConfigAttribs`): the surface-type mask, the
  attribute list given to `eglChooseConfig`, and how a driver reads that list.
- `gl_context_egl.dfy` (module `GbmWindowing`): one pure step function per
  operation on a `Handles` snapshot, giving the handles afterwards, the calls
  made in order and the result. The class `GLContextEGL` has the four fields
  and a ghost `trace`. Each method updates its fields step by step as the
  C++ does. Each method is proved to end exactly where its step function says,
  with the step's calls appended to `trace`.
- `lifecycle.dfy` (module `Lifecycle`): properties spanning several
  operations. These cover re-entry, guards over any sequence of operations, and
  the full create/bind/detach/destroy scenario.

Two details of `Destroy` (GLContextEGL.cpp:198-218) that the model keeps as written:

- `Destroy` leaves the config field as it was. Only the display, surface and
  context go back to their sentinels.
- `Destroy` calls `eglDestroyContext` first and only then unbinds with
  `eglMakeCurrent` (GLContextEGL.cpp:202-203).

## Model

| member | source | states |
|---|---|---|
| CString.StrStr | xbmc/windowing/gbm/GLContextEGL.cpp:77-78 | strstr finds a match exactly when the needle is a substring, and then it returns the first match |
| ConfigAttribs.SurfaceType | xbmc/windowing/gbm/GLContextEGL.cpp:50-54 | the window bit is always set; the preserved-swap bit is set iff the dirty-region solver is cost-reduction or union; no other bit is set |
| ConfigAttribs.ConfigAttributes | xbmc/windowing/gbm/GLContextEGL.cpp:56-69 | the list has ten attribute/value pairs, none of them EGL_NONE, and ends with EGL_NONE |
| ConfigAttribs.ConfigRequest | xbmc/windowing/gbm/GLContextEGL.cpp:56-69 | read the way EGL reads the list, it asks for 8-bit red, green, blue and alpha, 16-bit depth, no stencil or multisampling, the computed surface type and the caller's renderable type, and no other attribute |
| ConfigAttribs.PreservedSwapRequested | xbmc/windowing/gbm/GLContextEGL.cpp:50-69 | the requested surface type always includes the window bit, and includes the preserved-swap bit iff the solver needs preserved buffers |
| GbmWindowing.UsePlatformDisplay | xbmc/windowing/gbm/GLContextEGL.cpp:74-78 | the platform path is taken iff all hold: the headers declare both extensions, no display is held, the client extension string is non-NULL, and it contains both extension names |
| GbmWindowing.AcquireDisplay | xbmc/windowing/gbm/GLContextEGL.cpp:71-91 | display acquisition as a step function. It changes only the display; which calls it makes and in what order is proved in AcquireDisplayPaths |
| GbmWindowing.AcquireDisplayPaths | xbmc/windowing/gbm/GLContextEGL.cpp:71-91 | the extensions are always queried first. Only acquisition calls are made, in the order probe, eglGetProcAddress, eglGetPlatformDisplayEXT, eglGetDisplay, none twice. eglGetProcAddress is called iff the probe allows it. The platform display call is made iff the probe allows it and the function was found. eglGetDisplay is called iff no display is held after that. A display already held is kept. The resulting display is the one the last of these calls returned |
| GbmWindowing.CreateDisplayStep | xbmc/windowing/gbm/GLContextEGL.cpp:43-124 | CreateDisplay as a step function. Surface and context are untouched and the acquisition calls come first; the failure ladder is proved in CreateDisplayLadder and the call order in CreateDisplayOrder |
| GbmWindowing.CreateDisplayLadder | xbmc/windowing/gbm/GLContextEGL.cpp:93-123 | CreateDisplay returns true iff a display was obtained, eglInitialize succeeded, eglChooseConfig succeeded and the count is positive. Initialize is called iff a display was obtained. BindAPI and ChooseConfig (with the list above, config size 1) are called iff initialisation also succeeded. The display's extension string is queried iff the result is true. The config changes only through ChooseConfig. |
| GbmWindowing.CreateDisplayOrder | xbmc/windowing/gbm/GLContextEGL.cpp:93-123 | after acquisition only calls on the acquired display are made, in the order eglInitialize, eglBindAPI, eglChooseConfig, eglQueryString(display, EGL_EXTENSIONS), none twice |
| GbmWindowing.CreateContextStep | xbmc/windowing/gbm/GLContextEGL.cpp:126-147 | with a context held, there is no driver call, no change and the result is true. Otherwise exactly one eglCreateContext call is made on the held display and config, with no share context and client version 2. The result is true iff a context is held afterwards |
| GbmWindowing.BindContextStep | xbmc/windowing/gbm/GLContextEGL.cpp:149-160 | one eglMakeCurrent call with the held surface as both draw and read and the held context; handles unchanged; the result is the driver's |
| GbmWindowing.SurfaceAttribStep | xbmc/windowing/gbm/GLContextEGL.cpp:162-180 | the result is false iff the solver preserves buffers and the display or surface is none; a refused eglSurfaceAttrib still yields true; the attribute call (swap behaviour = preserved) is made iff the result is true and the solver preserves buffers; handles unchanged |
| GbmWindowing.CreateSurfaceStep | xbmc/windowing/gbm/GLContextEGL.cpp:182-196 | the surface field is overwritten with the driver's answer, whatever was held. The result is true iff that answer is a surface. The call is eglCreateWindowSurface on the held display and config, followed by eglGetError only on failure |
| GbmWindowing.DestroyStep | xbmc/windowing/gbm/GLContextEGL.cpp:198-218 | afterwards display, surface and context are none and the config is unchanged. The context is destroyed and unbound iff one was held. The surface is destroyed iff one was held. The display is terminated iff one was held |
| GbmWindowing.DestroyInTeardownOrder | xbmc/windowing/gbm/GLContextEGL.cpp:198-218 | Destroy only makes teardown calls on the held handles, in the order destroy context, unbind, destroy surface, terminate, none of them twice |
| GbmWindowing.DetachStep | xbmc/windowing/gbm/GLContextEGL.cpp:220-232 | only the surface changes, to none. It unbinds iff a context is held and destroys the surface iff one is held. It never destroys the context or terminates the display |
| GbmWindowing.DetachInTeardownOrder | xbmc/windowing/gbm/GLContextEGL.cpp:220-232 | Detach only unbinds and then releases the held surface, in that order |
| GbmWindowing.SetVSyncStep | xbmc/windowing/gbm/GLContextEGL.cpp:234-242 | one eglSwapInterval call with interval 1 when enabled, 0 otherwise; handles unchanged; the result is the driver's |
| GbmWindowing.SwapBuffersStep | xbmc/windowing/gbm/GLContextEGL.cpp:244-252 | handles never change; no driver call iff the display or surface is none; otherwise exactly one eglSwapBuffers on them |
| GbmWindowing.GLContextEGL.constructor | xbmc/windowing/gbm/GLContextEGL.cpp:30-36 | all handles start at their sentinels (config 0) and the trace is empty |
| GbmWindowing.GLContextEGL.ObtainDisplay | xbmc/windowing/gbm/GLContextEGL.cpp:71-91 | the fields and trace move exactly as AcquireDisplay says |
| GbmWindowing.GLContextEGL.CreateDisplay | xbmc/windowing/gbm/GLContextEGL.cpp:43-124 | fields, trace and result are exactly those of CreateDisplayStep |
| GbmWindowing.GLContextEGL.CreateContext | xbmc/windowing/gbm/GLContextEGL.cpp:126-147 | fields, trace and result are exactly those of CreateContextStep |
| GbmWindowing.GLContextEGL.BindContext | xbmc/windowing/gbm/GLContextEGL.cpp:149-160 | fields, trace and result are exactly those of BindContextStep |
| GbmWindowing.GLContextEGL.SurfaceAttrib | xbmc/windowing/gbm/GLContextEGL.cpp:162-180 | fields, trace and result are exactly those of SurfaceAttribStep |
| GbmWindowing.GLContextEGL.CreateSurface | xbmc/windowing/gbm/GLContextEGL.cpp:182-196 | fields, trace and result are exactly those of CreateSurfaceStep |
| GbmWindowing.GLContextEGL.Destroy | xbmc/windowing/gbm/GLContextEGL.cpp:198-218 | fields and trace are exactly those of DestroyStep: display, surface and context none, config kept |
| GbmWindowing.GLContextEGL.Detach | xbmc/windowing/gbm/GLContextEGL.cpp:220-232 | fields and trace are exactly those of DetachStep: surface none, display, context and config kept |
| GbmWindowing.GLContextEGL.SetVSync | xbmc/windowing/gbm/GLContextEGL.cpp:234-242 | fields, trace and result are exactly those of SetVSyncStep |
| GbmWindowing.GLContextEGL.SwapBuffers | xbmc/windowing/gbm/GLContextEGL.cpp:244-252 | fields are unchanged and the trace grows exactly as SwapBuffersStep says |
| Lifecycle.CreateContextIdempotent | xbmc/windowing/gbm/GLContextEGL.cpp:134-146 | after a successful CreateContext, a second one makes no call, changes nothing and returns true |
| Lifecycle.NoSecondContext | xbmc/windowing/gbm/GLContextEGL.cpp:134-146 | while a context is held, any sequence of operations without a Destroy keeps that context and makes no eglCreateContext call, so CreateContext never allocates a second context between two Destroys |
| Lifecycle.DestroyIdempotent | xbmc/windowing/gbm/GLContextEGL.cpp:198-218 | a second Destroy makes no driver call and changes nothing |
| Lifecycle.DestroyReleasesOnlyHeld | xbmc/windowing/gbm/GLContextEGL.cpp:198-218 | every Destroy call is on the held display, and never destroys or terminates a sentinel handle |
| Lifecycle.SwapBuffersAfterTeardown | xbmc/windowing/gbm/GLContextEGL.cpp:244-249 | after Destroy or Detach, SwapBuffers makes no call |
| Lifecycle.RunGuarded | xbmc/windowing/gbm/GLContextEGL.cpp:162-252 | over any sequence of operations and driver answers, no call destroys a none context or surface. No call terminates a none display. No call presents or sets an attribute without a display and a surface |
| Lifecycle.RunThenDestroy | xbmc/windowing/gbm/GLContextEGL.cpp:198-218 | any sequence ending in Destroy leaves display, surface and context none, and a further Destroy makes no call |
| Lifecycle.FullLifecycle | xbmc/windowing/gbm/GLContextEGL.cpp:43-232 | with a driver that grants display, config, context and surface, all four creating steps succeed. Bind makes current the new surface and context. Detach clears only the surface. Destroy ends with display, surface and context none and the chosen config kept |
| Lifecycle.GenericDisplayWithoutPlatformTokens | xbmc/windowing/gbm/GLContextEGL.cpp:74-91 | from a fresh context, a NULL extension string or one missing either platform token means no eglGetProcAddress lookup; eglGetDisplay is called and its display is the one held |

## Left out

- Driver semantics: what the handles point to, config matching, thread-affine
  current binding. Each call's result is an arbitrary argument.
- Logging (`CLog::Log`): it never affects control flow. The driver calls made
  only to feed a log line are still recorded: the display's extension query
  and `eglGetError`. Their results are dropped.
- The global dirty-region setting is a `DirtyRegionSolver` parameter
  (cost-reduction, union, other). Its integer encoding is not modelled, because
  `guilib/IDirtyRegionSolver.h` is not part of this model.
- The compile-time `#if` on the platform extensions is the `headers` flag.
  The `eglGetProcAddress` function pointer is the `procFound` answer.
- A C string is modelled by the characters before its terminating NUL; the
  terminator itself is not modelled.
- The destructor `~CGLContextEGL` only calls `Destroy`. Dafny has no
  destructors, so it is covered by the `Destroy` method.
- The `major`/`minor` outputs of `eglInitialize` and the result of
  `eglBindAPI` are ignored by the source, so they are not modelled.
- What a failed `eglChooseConfig` does to its config output is left to the
  driver: the model stores the answer `chosenConfig` whenever the call is made,
  and any value is allowed, which includes leaving the config as it was. The
  count it writes is `numConfigs`.
- Pointer values printed in diagnostics are left out.
