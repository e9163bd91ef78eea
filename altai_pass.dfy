/** Render-pass descriptions: the attachment attributes an application
    passes to `beginPass`, and the `ColorAttachment`, `DepthAttachment` and
    `Pass` objects built from them with every default filled in. */
module AltaiPass {
  import opened Js
  import opened AltaiTypes

  /** A clear colour `[r, g, b, a]`; the components are only passed on. */
  datatype Rgba = Rgba(r: real, g: real, b: real, a: real)

  datatype ColorAttachmentAttrs = ColorAttachmentAttrs(
    texture: Option<Texture>,
    mipLevel: Option<int>,
    slice: Option<int>,
    loadAction: Option<LoadAction>,
    clearColor: Option<Rgba>)

  /** `{}` as colour attachment attributes. */
  const NoColorAttachmentAttrs := ColorAttachmentAttrs(None, None, None, None, None)

  /** A colour attachment; `texture` is `None` for the canvas (`null`). */
  datatype ColorAttachment = ColorAttachment(
    texture: Option<Texture>,
    mipLevel: int,
    slice: int,
    loadAction: LoadAction,
    clearColor: Rgba)

  datatype DepthAttachmentAttrs = DepthAttachmentAttrs(
    texture: Option<Texture>,
    loadAction: Option<LoadAction>,
    clearDepth: Option<real>,
    clearStencil: Option<int>)

  /** `{}` as depth attachment attributes. */
  const NoDepthAttachmentAttrs := DepthAttachmentAttrs(None, None, None, None)

  datatype DepthAttachment = DepthAttachment(
    texture: Option<Texture>,
    loadAction: LoadAction,
    clearDepth: real,
    clearStencil: int)

  datatype PassAttrs = PassAttrs(
    colorAttachments: Option<seq<ColorAttachmentAttrs>>,
    depthAttachment: Option<DepthAttachmentAttrs>,
    storeAction: Option<StoreAction>)

  datatype Pass = Pass(
    colorAttachments: seq<ColorAttachment>,
    depthAttachment: DepthAttachment,
    storeAction: StoreAction)

  /** The `ColorAttachment` constructor: the texture as given (`null` when
      absent), mip level and slice 0, load action Clear and opaque black
      unless supplied. */
  function ColorAttachmentOf(attrs: ColorAttachmentAttrs): (c: ColorAttachment)
    ensures c.texture == attrs.texture
    ensures attrs.mipLevel.Some? ==> c.mipLevel == attrs.mipLevel.value
    ensures attrs.mipLevel.None? ==> c.mipLevel == 0
    ensures attrs.slice.Some? ==> c.slice == attrs.slice.value
    ensures attrs.slice.None? ==> c.slice == 0
    ensures attrs.loadAction.Some? ==> c.loadAction == attrs.loadAction.value
    ensures attrs.loadAction.None? ==> c.loadAction == LoadAction.Clear
    ensures attrs.clearColor.Some? ==> c.clearColor == attrs.clearColor.value
    ensures attrs.clearColor.None? ==> c.clearColor == Rgba(0.0, 0.0, 0.0, 1.0)
  {
    ColorAttachment(
      attrs.texture,  // some(texture, null) leaves null as null
      SomeOr(attrs.mipLevel, 0),
      SomeOr(attrs.slice, 0),
      SomeOr(attrs.loadAction, LoadAction.Clear),
      SomeOr(attrs.clearColor, Rgba(0.0, 0.0, 0.0, 1.0)))
  }

  /** The `DepthAttachment` constructor: the texture as given, load action
      Clear, depth 1.0 and stencil 0 unless supplied. */
  function DepthAttachmentOf(attrs: DepthAttachmentAttrs): (d: DepthAttachment)
    ensures d.texture == attrs.texture
    ensures attrs.loadAction.Some? ==> d.loadAction == attrs.loadAction.value
    ensures attrs.loadAction.None? ==> d.loadAction == LoadAction.Clear
    ensures attrs.clearDepth.Some? ==> d.clearDepth == attrs.clearDepth.value
    ensures attrs.clearDepth.None? ==> d.clearDepth == 1.0
    ensures attrs.clearStencil.Some? ==> d.clearStencil == attrs.clearStencil.value
    ensures attrs.clearStencil.None? ==> d.clearStencil == 0
  {
    DepthAttachment(
      attrs.texture,  // some(texture, null) leaves null as null
      SomeOr(attrs.loadAction, LoadAction.Clear),
      SomeOr(attrs.clearDepth, 1.0),
      SomeOr(attrs.clearStencil, 0))
  }

  /** One colour attachment per attribute entry, in the same order. */
  function ColorAttachmentsOf(entries: seq<ColorAttachmentAttrs>): (cs: seq<ColorAttachment>)
    ensures |cs| == |entries|
    ensures forall i :: 0 <= i < |entries| ==> cs[i] == ColorAttachmentOf(entries[i])
  {
    if entries == [] then []
    else [ColorAttachmentOf(entries[0])] + ColorAttachmentsOf(entries[1..])
  }

  /** What the `Pass` constructor builds: without colour attachment
      attributes, a single default attachment (the canvas, cleared to opaque
      black); otherwise one attachment per entry, so an empty array gives
      none. The depth attachment always exists and the store action
      defaults to DontCare. */
  function PassOf(attrs: PassAttrs): (p: Pass)
    ensures attrs.colorAttachments.None? ==>
      p.colorAttachments == [ColorAttachment(None, 0, 0, LoadAction.Clear, Rgba(0.0, 0.0, 0.0, 1.0))]
    ensures attrs.colorAttachments.Some? ==>
      |p.colorAttachments| == |attrs.colorAttachments.value| &&
      forall i :: 0 <= i < |p.colorAttachments| ==>
        p.colorAttachments[i] == ColorAttachmentOf(attrs.colorAttachments.value[i])
    ensures attrs.depthAttachment.None? ==>
      p.depthAttachment == DepthAttachment(None, LoadAction.Clear, 1.0, 0)
    ensures attrs.depthAttachment.Some? ==>
      p.depthAttachment == DepthAttachmentOf(attrs.depthAttachment.value)
    ensures attrs.storeAction.Some? ==> p.storeAction == attrs.storeAction.value
    ensures attrs.storeAction.None? ==> p.storeAction == StoreAction.DontCare
  {
    Pass(
      if attrs.colorAttachments.None? then [ColorAttachmentOf(NoColorAttachmentAttrs)]
      else ColorAttachmentsOf(attrs.colorAttachments.value),
      DepthAttachmentOf(SomeOr(attrs.depthAttachment, NoDepthAttachmentAttrs)),
      SomeOr(attrs.storeAction, StoreAction.DontCare))
  }

  /** The `Pass` constructor as the TypeScript code runs it: start from an empty
      array and push one attachment per entry. */
  method MakePass(attrs: PassAttrs) returns (p: Pass)
    ensures p == PassOf(attrs)
  {
    var colorAttachments: seq<ColorAttachment> := [];
    if attrs.colorAttachments.None? {
      colorAttachments := colorAttachments + [ColorAttachmentOf(NoColorAttachmentAttrs)];
    } else {
      var entries := attrs.colorAttachments.value;
      var i := 0;
      while i < |entries|
        invariant 0 <= i <= |entries|
        invariant |colorAttachments| == i
        invariant forall j :: 0 <= j < i ==> colorAttachments[j] == ColorAttachmentOf(entries[j])
      {
        colorAttachments := colorAttachments + [ColorAttachmentOf(entries[i])];
        i := i + 1;
      }
      assert colorAttachments == ColorAttachmentsOf(entries);
    }
    var depthAttachment := DepthAttachmentOf(SomeOr(attrs.depthAttachment, NoDepthAttachmentAttrs));
    p := Pass(colorAttachments, depthAttachment, SomeOr(attrs.storeAction, StoreAction.DontCare));
  }

  /** A pass renders to the canvas (the default pass) iff its first colour
      attachment has no texture; it needs a first attachment to ask. */
  predicate IsDefaultPass(p: Pass)
    requires |p.colorAttachments| > 0
    ensures IsDefaultPass(p) <==> p.colorAttachments[0].texture.None?
  {
    !Truthy(p.colorAttachments[0].texture)
  }

  /** Default-pass detection in terms of what the application supplied: no
      colour attachment attributes, or a first entry without a texture. A
      pass has a first attachment unless an empty array was supplied. */
  lemma DefaultPassOf(attrs: PassAttrs)
    ensures |PassOf(attrs).colorAttachments| > 0 <==>
      attrs.colorAttachments.None? || |attrs.colorAttachments.value| > 0
    ensures |PassOf(attrs).colorAttachments| > 0 ==>
      (IsDefaultPass(PassOf(attrs)) <==>
        attrs.colorAttachments.None? || attrs.colorAttachments.value[0].texture.None?)
  {
  }
}
