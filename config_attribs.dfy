/**
  * The framebuffer configuration that CreateDisplay asks the driver for:
  * the surface-type mask, which depends on the GUI's dirty-region solver,
  * and the EGL_NONE-terminated attribute list handed to eglChooseConfig.
  */
module ConfigAttribs {
  import opened Egl
  import opened Wrappers

  /** The GUI's dirty-region algorithm setting, as far as the context distinguishes it. */
  datatype DirtyRegionSolver = CostReduction | Union | Other

  /** The solvers that repaint only part of the screen and so need the back buffer kept across swaps. */
  predicate PreservesBuffer(solver: DirtyRegionSolver) {
    solver == CostReduction || solver == Union
  }

  /** EGL_SURFACE_TYPE requested for the config. */
  function SurfaceType(solver: DirtyRegionSolver): (st: bv32)
    ensures st & WindowBit == WindowBit
    ensures (st & SwapBehaviorPreservedBit == SwapBehaviorPreservedBit) <==> PreservesBuffer(solver)
    ensures st & !(WindowBit | SwapBehaviorPreservedBit) == 0
  {
    var windowOnly := WindowBit;
    if PreservesBuffer(solver) then windowOnly | SwapBehaviorPreservedBit else windowOnly
  }

  /** The value an EGL attribute list gives `key`: pairs are read up to the EGL_NONE terminator. */
  function AttribValue(attribs: seq<EGLint>, key: EGLint): Option<EGLint>
    decreases |attribs|
  {
    if |attribs| < 2 || attribs[0] == AttribListEnd then None
    else if attribs[0] == key then Some(attribs[1])
    else AttribValue(attribs[2..], key)
  }

  /** The attribute list of the eglChooseConfig call. */
  function ConfigAttributes(solver: DirtyRegionSolver, renderable: EGLint): (a: seq<EGLint>)
    ensures |a| == 21 && a[20] == AttribListEnd
    ensures forall k :: 0 <= k < 10 ==> a[2 * k] != AttribListEnd
  {
    [ RedSize,         8,
      GreenSize,       8,
      BlueSize,        8,
      AlphaSize,       8,
      DepthSize,       16,
      StencilSize,     0,
      SampleBuffers,   0,
      Samples,         0,
      SurfaceTypeAttr, SurfaceType(solver) as int as EGLint,
      RenderableType,  renderable,
      AttribListEnd ]
  }

  /** Reading a list that starts with the pair (k, v). */
  lemma AttribValuePair(k: EGLint, v: EGLint, rest: seq<EGLint>, key: EGLint)
    requires k != AttribListEnd
    ensures AttribValue([k, v] + rest, key) == if k == key then Some(v) else AttribValue(rest, key)
  {
    assert ([k, v] + rest)[2..] == rest;
  }

  /** Read the way the driver reads it, the list requests 8-8-8-8 colour, a 16-bit depth buffer,
      no stencil and no multisampling, the solver's surface type and the caller's renderable type,
      and nothing else. */
  lemma ConfigRequest(solver: DirtyRegionSolver, renderable: EGLint, key: EGLint)
    ensures var a := ConfigAttributes(solver, renderable);
      AttribValue(a, key) ==
        if key == RedSize || key == GreenSize || key == BlueSize || key == AlphaSize then Some(8)
        else if key == DepthSize then Some(16)
        else if key == StencilSize || key == SampleBuffers || key == Samples then Some(0)
        else if key == SurfaceTypeAttr then Some(SurfaceType(solver) as int as EGLint)
        else if key == RenderableType then Some(renderable)
        else None
  {
    // The list as pairs consed onto its tail, read one pair at a time.
    var st := SurfaceType(solver) as int as EGLint;
    var t10 := [AttribListEnd];
    var t9 := [RenderableType, renderable] + t10;
    var t8 := [SurfaceTypeAttr, st] + t9;
    var t7 := [Samples, 0] + t8;
    var t6 := [SampleBuffers, 0] + t7;
    var t5 := [StencilSize, 0] + t6;
    var t4 := [DepthSize, 16] + t5;
    var t3 := [AlphaSize, 8] + t4;
    var t2 := [BlueSize, 8] + t3;
    var t1 := [GreenSize, 8] + t2;
    var t0 := [RedSize, 8] + t1;
    assert ConfigAttributes(solver, renderable) == t0;
    AttribValuePair(RenderableType, renderable, t10, key);
    AttribValuePair(SurfaceTypeAttr, st, t9, key);
    AttribValuePair(Samples, 0, t8, key);
    AttribValuePair(SampleBuffers, 0, t7, key);
    AttribValuePair(StencilSize, 0, t6, key);
    AttribValuePair(DepthSize, 16, t5, key);
    AttribValuePair(AlphaSize, 8, t4, key);
    AttribValuePair(BlueSize, 8, t3, key);
    AttribValuePair(GreenSize, 8, t2, key);
    AttribValuePair(RedSize, 8, t1, key);
  }

  /** A surface-type attribute value, read as a two's complement bit mask, has the bit `bit`
      set. `bit` is one of the single-bit surface-type masks, so dividing by it and taking the
      (Euclidean) remainder mod 2 reads exactly that bit, for negative values too. */
  predicate HasSurfaceBit(value: Option<EGLint>, bit: bv32)
    requires bit == WindowBit || bit == SwapBehaviorPreservedBit
  {
    value.Some? && (value.value as int / bit as int) % 2 == 1
  }

  /** The config request always asks for window surfaces, and for buffer-preserving swaps
      exactly when the dirty-region solver is cost-reduction or union. */
  lemma PreservedSwapRequested(solver: DirtyRegionSolver, renderable: EGLint)
    ensures HasSurfaceBit(AttribValue(ConfigAttributes(solver, renderable), SurfaceTypeAttr), WindowBit)
    ensures HasSurfaceBit(AttribValue(ConfigAttributes(solver, renderable), SurfaceTypeAttr), SwapBehaviorPreservedBit) <==>
              PreservesBuffer(solver)
  {
    SurfaceTypeRequested(solver, renderable);
    SurfaceTypeBits(solver);
  }

  /** The surface type, passed as an EGLint, keeps its bits. */
  lemma SurfaceTypeBits(solver: DirtyRegionSolver)
    ensures HasSurfaceBit(Some(SurfaceType(solver) as int as EGLint), WindowBit)
    ensures HasSurfaceBit(Some(SurfaceType(solver) as int as EGLint), SwapBehaviorPreservedBit) <==>
              PreservesBuffer(solver)
  {
  }

  /** The surface-type attribute of the config request. */
  lemma SurfaceTypeRequested(solver: DirtyRegionSolver, renderable: EGLint)
    ensures AttribValue(ConfigAttributes(solver, renderable), SurfaceTypeAttr) == Some(SurfaceType(solver) as int as EGLint)
  {
    ConfigRequest(solver, renderable, SurfaceTypeAttr);
  }
}
