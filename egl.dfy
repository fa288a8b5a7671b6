/**
  * The part of the EGL interface that the GBM graphics context talks to:
  * the scalar types, the handles with their "none" sentinels, the constants
  * the context passes, and one event per driver entry point so that a run can
  * be recorded as a sequence of calls.  Nothing here gives the calls any
  * meaning: results come from the caller of each operation.
  */
module Egl {

  /** EGLint: a signed 32-bit integer. */
  newtype EGLint = x: int | -0x8000_0000 <= x < 0x8000_0000

  /** EGLenum: an unsigned 32-bit integer. */
  newtype EGLenum = x: int | 0 <= x < 0x1_0000_0000

  // Handles are opaque driver values; 0 is the null pointer.
  type Display = nat
  type Surface = nat
  type Context = nat
  type Config = nat
  type NativeDisplay = nat
  type NativeWindow = nat

  const NoDisplay: Display := 0   // EGL_NO_DISPLAY
  const NoSurface: Surface := 0   // EGL_NO_SURFACE
  const NoContext: Context := 0   // EGL_NO_CONTEXT
  const NullConfig: Config := 0   // the context's initial m_eglConfig

  // Attribute names and values (Khronos egl.h).
  const AlphaSize: EGLint := 0x3021
  const BlueSize: EGLint := 0x3022
  const GreenSize: EGLint := 0x3023
  const RedSize: EGLint := 0x3024
  const DepthSize: EGLint := 0x3025
  const StencilSize: EGLint := 0x3026
  const Samples: EGLint := 0x3031
  const SampleBuffers: EGLint := 0x3032
  const SurfaceTypeAttr: EGLint := 0x3033
  const AttribListEnd: EGLint := 0x3038      // EGL_NONE
  const RenderableType: EGLint := 0x3040
  const Extensions: EGLint := 0x3055
  const SwapBehavior: EGLint := 0x3093
  const BufferPreserved: EGLint := 0x3094
  const ContextClientVersion: EGLint := 0x3098

  // Surface-type bits.
  const WindowBit: bv32 := 0x0004
  const SwapBehaviorPreservedBit: bv32 := 0x0400

  // EGL_KHR_platform_gbm
  const PlatformGbm: EGLenum := 0x31D7

  /** One call into the driver, with the arguments that identify it. */
  datatype Call =
    | QueryString(dpy: Display, name: EGLint)
    | GetProcAddress(procName: string)
    | GetPlatformDisplay(platform: EGLenum, nativeDisplay: NativeDisplay)
    | GetDisplay(nativeDisplay: NativeDisplay)
    | Initialize(dpy: Display)
    | BindApi(api: EGLint)
    | ChooseConfig(dpy: Display, attribs: seq<EGLint>, configSize: EGLint)
    | CreateContext(dpy: Display, cfg: Config, shareContext: Context, attribs: seq<EGLint>)
    | MakeCurrent(dpy: Display, draw: Surface, read: Surface, ctx: Context)
    | SurfaceAttrib(dpy: Display, surf: Surface, attribute: EGLint, value: EGLint)
    | CreateWindowSurface(dpy: Display, cfg: Config, window: NativeWindow)
    | GetError
    | DestroyContext(dpy: Display, ctx: Context)
    | DestroySurface(dpy: Display, surf: Surface)
    | Terminate(dpy: Display)
    | SwapInterval(dpy: Display, interval: EGLint)
    | SwapBuffers(dpy: Display, surf: Surface)

}
