/** The slice of the WebGL 1.0 `WebGLRenderingContext` that the altai facade
    calls, modelled as a log of the calls issued, in order. The constants are
    those of section 5.14 of the WebGL 1.0 specification. */
module WebGL {
  import Js


  const COLOR_BUFFER_BIT: bv32 := 0x4000
  const DEPTH_BUFFER_BIT: bv32 := 0x100
  const STENCIL_BUFFER_BIT: bv32 := 0x400
  const SCISSOR_TEST: bv32 := 0x0C11
  const ARRAY_BUFFER: bv32 := 0x8892
  const STREAM_DRAW: bv32 := 0x88E0
  const STATIC_DRAW: bv32 := 0x88E4
  const DYNAMIC_DRAW: bv32 := 0x88E8

  /** An opaque `WebGLBuffer` handle as returned by `createBuffer`. */
  class BufferObject {
    constructor () { }
  }

  /** One call into the rendering context. */
  datatype Command =
    | Viewport(x: int, y: int, width: int, height: int)
    | Scissor(x: int, y: int, width: int, height: int)
    | Disable(cap: bv32)
    | ColorMask(writeRed: bool, writeGreen: bool, writeBlue: bool, writeAlpha: bool)
    | DepthMask(flag: bool)
    | StencilMask(mask: bv32)
    | ClearColor(red: real, green: real, blue: real, alpha: real)
    | ClearDepth(depth: real)
    | ClearStencil(s: int)
    | Clear(mask: bv32)
    | CreateBuffer(buffer: BufferObject)
    | BindBuffer(target: bv32, buffer: BufferObject)
    | BufferData(target: bv32, data: seq<Js.Byte>, usage: bv32)

  /** The calls that set a clear value or clear buffers. */
  predicate IsClearing(c: Command) {
    c.ClearColor? || c.ClearDepth? || c.ClearStencil? || c.Clear?
  }

  /** How many `clear` calls a log holds. */
  function ClearCount(log: seq<Command>): (n: nat)
    ensures n <= |log|
    ensures n == 0 <==> forall i :: 0 <= i < |log| ==> !log[i].Clear?
  {
    if log == [] then 0
    else (if log[0].Clear? then 1 else 0) + ClearCount(log[1..])
  }

  lemma {:induction false} ClearCountAppend(a: seq<Command>, b: seq<Command>)
    ensures ClearCount(a + b) == ClearCount(a) + ClearCount(b)
  {
    if a == [] {
      assert a + b == b;
    } else {
      assert (a + b)[1..] == a[1..] + b;
      ClearCountAppend(a[1..], b);
    }
  }
}
