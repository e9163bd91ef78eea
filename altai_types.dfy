/** The enumerations and resource handles of src/altai.ts that the modelled
    operations use, and `GLTypes`, which maps them to WebGL enums. */
module AltaiTypes {
  import opened Js
  import GL = WebGL

  datatype PixelFormat =
    | NONE | RGBA8 | RGB8 | RGBA4 | RGB565 | RGB5_A1 | RGB10_A2
    | RGBA32F | RGBA16F | R32F | R16F | DEPTH | DEPTHSTENCIL

  datatype Usage = Immutable | Dynamic | Stream

  datatype LoadAction = DontCare | Load | Clear

  datatype StoreAction = DontCare | Store | Resolve | StoreAndResolve

  /** An opaque texture object; its attributes play no part in the model. */
  class Texture { }

  /** `GLTypes.usage`: the `bufferData` usage hint for a buffer usage. */
  function GlUsage(usage: Usage): (e: bv32)
    ensures e == GL.STATIC_DRAW <==> usage == Immutable
    ensures e == GL.DYNAMIC_DRAW <==> usage == Dynamic
    ensures e == GL.STREAM_DRAW <==> usage == Stream
  {
    match usage
    case Immutable => GL.STATIC_DRAW
    case Dynamic => GL.DYNAMIC_DRAW
    case Stream => GL.STREAM_DRAW
  }

  /** The inverse of `GlUsage`: which usage a usage hint stands for, if any. */
  function UsageOfGl(e: bv32): (u: Option<Usage>)
    ensures u.Some? <==> e in {GL.STATIC_DRAW, GL.DYNAMIC_DRAW, GL.STREAM_DRAW}
  {
    if e == GL.STATIC_DRAW then Some(Immutable)
    else if e == GL.DYNAMIC_DRAW then Some(Dynamic)
    else if e == GL.STREAM_DRAW then Some(Stream)
    else None
  }

  /** `GlUsage` is total and loses nothing: its hint decodes back to the
      usage, and every hint that decodes comes from exactly that usage. */
  lemma GlUsageRoundTrip(usage: Usage, e: bv32)
    ensures UsageOfGl(GlUsage(usage)) == Some(usage)
    ensures UsageOfGl(e) == Some(usage) ==> GlUsage(usage) == e
  {
  }

  lemma GlUsageInjective(u: Usage, v: Usage)
    ensures GlUsage(u) == GlUsage(v) ==> u == v
  {
    GlUsageRoundTrip(u, GlUsage(v));
  }

  /** A vertex buffer: its usage and the WebGL buffer behind it, both fixed
      at creation. */
  datatype Buffer = Buffer(usage: Usage, glBuffer: GL.BufferObject)
}
