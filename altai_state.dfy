/** `GfxAttrs`, the `GfxState` resolved from it, and the drawing-context
    attributes the `Gfx` constructor derives from that state. */
module AltaiState {
  import opened Js
  import opened AltaiTypes

  datatype GfxAttrs = GfxAttrs(
    canvas: Option<string>,
    width: Option<int>,
    height: Option<int>,
    colorFormat: Option<PixelFormat>,
    depthFormat: Option<PixelFormat>,
    msaa: Option<bool>,
    highDPI: Option<bool>)

  datatype GfxState = GfxState(
    canvas: string,
    width: int,
    height: int,
    colorFormat: PixelFormat,
    depthFormat: PixelFormat,
    msaa: bool,
    highDPI: bool)

  /** The `GfxState` constructor: each supplied attribute is kept as given,
      each absent one gets its own default. */
  function GfxStateOf(attrs: GfxAttrs): (s: GfxState)
    ensures attrs.canvas.Some? ==> s.canvas == attrs.canvas.value
    ensures attrs.canvas.None? ==> s.canvas == "canvas"
    ensures attrs.width.Some? ==> s.width == attrs.width.value
    ensures attrs.width.None? ==> s.width == 640
    ensures attrs.height.Some? ==> s.height == attrs.height.value
    ensures attrs.height.None? ==> s.height == 480
    ensures attrs.colorFormat.Some? ==> s.colorFormat == attrs.colorFormat.value
    ensures attrs.colorFormat.None? ==> s.colorFormat == RGBA8
    ensures attrs.depthFormat.Some? ==> s.depthFormat == attrs.depthFormat.value
    ensures attrs.depthFormat.None? ==> s.depthFormat == DEPTHSTENCIL
    ensures attrs.msaa.Some? ==> s.msaa == attrs.msaa.value
    ensures attrs.msaa.None? ==> !s.msaa
    ensures attrs.highDPI.Some? ==> s.highDPI == attrs.highDPI.value
    ensures attrs.highDPI.None? ==> !s.highDPI
  {
    GfxState(
      SomeOr(attrs.canvas, "canvas"),
      SomeOr(attrs.width, 640),
      SomeOr(attrs.height, 480),
      SomeOr(attrs.colorFormat, RGBA8),
      SomeOr(attrs.depthFormat, DEPTHSTENCIL),
      SomeOr(attrs.msaa, false),
      SomeOr(attrs.highDPI, false))
  }

  /** Falsy values are supplied values: `{width: 0, msaa: false, canvas: ""}`
      is not replaced by the defaults. */
  lemma FalsyAttrsAreKept(attrs: GfxAttrs)
    requires attrs.canvas == Some("") && attrs.width == Some(0) && attrs.msaa == Some(false)
    ensures GfxStateOf(attrs).canvas == "" && GfxStateOf(attrs).width == 0
    ensures !GfxStateOf(attrs).msaa
  {
  }

  /** The attributes the drawing context is requested with. */
  datatype ContextAttrs = ContextAttrs(
    alpha: bool,
    depth: bool,
    stencil: bool,
    antialias: bool,
    premultipliedAlpha: bool,
    preserveDrawingBuffer: bool)

  /** The context attributes the `Gfx` constructor derives from its state:
      a depth buffer unless the depth format is NONE, a stencil buffer only
      for DEPTHSTENCIL (so never stencil without depth), antialiasing exactly
      when MSAA is asked for, and no alpha, premultiplied alpha or preserved
      drawing buffer whatever the state. */
  function ContextAttrsOf(s: GfxState): (c: ContextAttrs)
    ensures c.depth <==> s.depthFormat != NONE
    ensures c.stencil <==> s.depthFormat == DEPTHSTENCIL
    ensures c.stencil ==> c.depth
    ensures c.antialias == s.msaa
    ensures !c.alpha && !c.premultipliedAlpha && !c.preserveDrawingBuffer
  {
    ContextAttrs(
      alpha := false,
      depth := s.depthFormat != NONE,
      stencil := s.depthFormat == DEPTHSTENCIL,
      antialias := s.msaa,
      premultipliedAlpha := false,
      preserveDrawingBuffer := false)
  }

  /** With no attributes at all, the context gets depth and stencil and no
      antialiasing, on a 640x480 canvas named "canvas". */
  lemma DefaultGfx()
    ensures var s := GfxStateOf(GfxAttrs(None, None, None, None, None, None, None));
      s == GfxState("canvas", 640, 480, RGBA8, DEPTHSTENCIL, false, false) &&
      ContextAttrsOf(s) == ContextAttrs(false, true, true, false, false, false)
  {
  }
}
