/**
  * Properties of the context that relate several operations: re-entry of
  * CreateContext and Destroy, the sentinel guards over any sequence of
  * operations, and the create, bind, detach, destroy scenario.
  */
module Lifecycle {
  import opened Egl
  import opened ConfigAttribs
  import opened GbmWindowing

  /** Calling CreateContext again after it succeeded makes no driver call and changes nothing. */
  lemma CreateContextIdempotent(h: Handles, first: Context, second: Context)
    requires CreateContextStep(h, first).ok
    ensures CreateContextStep(CreateContextStep(h, first).after, second) ==
              Outcome(CreateContextStep(h, first).after, [], true)
  {
  }

  /** A second Destroy makes no driver call and leaves the handles as the first left them. */
  lemma DestroyIdempotent(h: Handles)
    ensures DestroyStep(DestroyStep(h).after) == Effect(DestroyStep(h).after, [])
  {
  }

  /** Destroy releases only handles it holds, each with the display it was created on. */
  lemma DestroyReleasesOnlyHeld(h: Handles)
    ensures forall c :: c in DestroyStep(h).calls ==>
              c.dpy == h.display &&
              (c.DestroyContext? ==> c.ctx == h.context && c.ctx != NoContext) &&
              (c.DestroySurface? ==> c.surf == h.surface && c.surf != NoSurface) &&
              (c.Terminate? ==> c.dpy != NoDisplay)
  {
  }

  /** After Destroy or Detach, SwapBuffers is silent: no surface is left to present. */
  lemma SwapBuffersAfterTeardown(h: Handles)
    ensures SwapBuffersStep(DestroyStep(h).after) == Effect(DestroyStep(h).after, [])
    ensures SwapBuffersStep(DetachStep(h).after) == Effect(DetachStep(h).after, [])
  {
  }

  // ---------------------------------------------------------------------------
  // Any sequence of operations

  /** One operation of the context together with the driver's answers to it. */
  datatype Op =
    | CreateDisplayOp(native: NativeDisplay, renderable: EGLint, api: EGLint,
                      solver: DirtyRegionSolver, headers: bool, rep: DisplayReplies)
    | CreateContextOp(context: Context)
    | BindContextOp(accepted: bool)
    | SurfaceAttribOp(attribSolver: DirtyRegionSolver, attribSet: bool)
    | CreateSurfaceOp(window: NativeWindow, surface: Surface)
    | DestroyOp
    | DetachOp
    | SetVSyncOp(enable: bool, vsyncAccepted: bool)
    | SwapBuffersOp

  /** The handles and calls of one operation, its result set aside. */
  function Apply(h: Handles, op: Op): Effect {
    match op
    case CreateDisplayOp(native, renderable, api, solver, headers, rep) =>
      var o := CreateDisplayStep(h, native, renderable, api, solver, headers, rep); Effect(o.after, o.calls)
    case CreateContextOp(c) => var o := CreateContextStep(h, c); Effect(o.after, o.calls)
    case BindContextOp(accepted) => var o := BindContextStep(h, accepted); Effect(o.after, o.calls)
    case SurfaceAttribOp(solver, attribSet) => var o := SurfaceAttribStep(h, solver, attribSet); Effect(o.after, o.calls)
    case CreateSurfaceOp(window, s) => var o := CreateSurfaceStep(h, window, s); Effect(o.after, o.calls)
    case DestroyOp => DestroyStep(h)
    case DetachOp => DetachStep(h)
    case SetVSyncOp(enable, accepted) => var o := SetVSyncStep(h, enable, accepted); Effect(o.after, o.calls)
    case SwapBuffersOp => SwapBuffersStep(h)
  }

  /** The handles after `ops` run in order from `h`, and every driver call they made. */
  function Run(h: Handles, ops: seq<Op>): Effect
    decreases |ops|
  {
    if ops == [] then Effect(h, [])
    else
      var first := Apply(h, ops[0]);
      var rest := Run(first.after, ops[1..]);
      Effect(rest.after, first.calls + rest.calls)
  }

  /** A call that releases or uses a handle is never made with that handle's sentinel. */
  predicate Guarded(c: Call) {
    match c
    case DestroyContext(_, ctx) => ctx != NoContext
    case DestroySurface(_, surf) => surf != NoSurface
    case Terminate(dpy) => dpy != NoDisplay
    case SwapBuffers(dpy, surf) => dpy != NoDisplay && surf != NoSurface
    case SurfaceAttrib(dpy, surf, _, _) => dpy != NoDisplay && surf != NoSurface
    case _ => true
  }

  /** CreateDisplay acquires and initialises; it makes none of the guarded calls. */
  lemma CreateDisplayGuarded(h: Handles, native: NativeDisplay, renderable: EGLint, api: EGLint,
                             solver: DirtyRegionSolver, headers: bool, rep: DisplayReplies)
    ensures forall c :: c in CreateDisplayStep(h, native, renderable, api, solver, headers, rep).calls ==>
              c.QueryString? || c.GetProcAddress? || c.GetPlatformDisplay? || c.GetDisplay? ||
              c.Initialize? || c.BindApi? || c.ChooseConfig?
  {
  }

  /** Every call of one operation is guarded. */
  lemma ApplyGuarded(h: Handles, op: Op)
    ensures forall c :: c in Apply(h, op).calls ==> Guarded(c)
  {
    match op
    case CreateDisplayOp(native, renderable, api, solver, headers, rep) =>
      CreateDisplayGuarded(h, native, renderable, api, solver, headers, rep);
    case DestroyOp => DestroyInTeardownOrder(h);
    case DetachOp => DetachInTeardownOrder(h);
    case _ =>
  }

  /** Whatever the operations and the driver's answers, the context never destroys, terminates,
      presents or sets an attribute on a sentinel handle. */
  lemma {:induction false} RunGuarded(h: Handles, ops: seq<Op>)
    ensures forall c :: c in Run(h, ops).calls ==> Guarded(c)
    decreases |ops|
  {
    if ops != [] {
      ApplyGuarded(h, ops[0]);
      RunGuarded(Apply(h, ops[0]).after, ops[1..]);
    }
  }

  /** Once a context is held, no sequence of operations without a Destroy replaces it or
      creates another: CreateContext re-entered after any other operations allocates nothing. */
  lemma {:induction false} NoSecondContext(h: Handles, ops: seq<Op>)
    requires h.context != NoContext
    requires forall i :: 0 <= i < |ops| ==> !ops[i].DestroyOp?
    ensures Run(h, ops).after.context == h.context
    ensures forall c :: c in Run(h, ops).calls ==> !c.CreateContext?
    decreases |ops|
  {
    if ops != [] {
      if ops[0].CreateDisplayOp? {
        var CreateDisplayOp(native, renderable, api, solver, headers, rep) := ops[0];
        CreateDisplayGuarded(h, native, renderable, api, solver, headers, rep);
      }
      NoSecondContext(Apply(h, ops[0]).after, ops[1..]);
    }
  }

  /** Ending any sequence of operations with Destroy leaves display, surface and context at
      their sentinels, and a further Destroy then makes no call. */
  lemma {:induction false} RunThenDestroy(h: Handles, ops: seq<Op>)
    ensures var r := Run(h, ops + [DestroyOp]).after;
      r.display == NoDisplay && r.surface == NoSurface && r.context == NoContext &&
      Run(r, [DestroyOp]).calls == []
    decreases |ops|
  {
    if ops != [] {
      assert (ops + [DestroyOp])[1..] == ops[1..] + [DestroyOp];
      RunThenDestroy(Apply(h, ops[0]).after, ops[1..]);
    }
  }

  // ---------------------------------------------------------------------------
  // The scenario of a full lifecycle

  /** Create display, context and surface with a driver that grants each of them, bind, detach
      and destroy: binding succeeds, detach clears only the surface, destroy clears display,
      surface and context, and the config stays the one chosen. */
  lemma FullLifecycle(native: NativeDisplay, renderable: EGLint, api: EGLint, solver: DirtyRegionSolver,
                      headers: bool, rep: DisplayReplies, ctx: Context, window: NativeWindow, surf: Surface)
    requires rep.genericDisplay != NoDisplay && rep.initialized && rep.configChosen && rep.numConfigs > 0
    requires ctx != NoContext && surf != NoSurface
    ensures var d := CreateDisplayStep(Initial, native, renderable, api, solver, headers, rep);
      var c := CreateContextStep(d.after, ctx);
      var s := CreateSurfaceStep(c.after, window, surf);
      var b := BindContextStep(s.after, true);
      var detached := DetachStep(b.after).after;
      var destroyed := DestroyStep(detached).after;
      d.ok && c.ok && s.ok && b.ok &&
      b.calls == [MakeCurrent(d.after.display, surf, surf, ctx)] &&
      detached.surface == NoSurface && detached.context == ctx && detached.display == d.after.display &&
      destroyed == Handles(NoDisplay, NoSurface, NoContext, rep.chosenConfig)
  {
  }

  /** A NULL extension string, or one without both platform tokens, sends CreateDisplay to the
      generic eglGetDisplay without looking up the platform function. */
  lemma GenericDisplayWithoutPlatformTokens(native: NativeDisplay, renderable: EGLint, api: EGLint,
                                            solver: DirtyRegionSolver, headers: bool, rep: DisplayReplies)
    requires rep.clientExtensions.Some? ==>
               !CString.Contains(rep.clientExtensions.value, PlatformBaseExtension) ||
               !CString.Contains(rep.clientExtensions.value, PlatformGbmExtension)
    ensures var r := CreateDisplayStep(Initial, native, renderable, api, solver, headers, rep);
      GetProcAddress(PlatformDisplayProc) !in r.calls && GetDisplay(native) in r.calls &&
      r.after.display == rep.genericDisplay
  {
  }
}
