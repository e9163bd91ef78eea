/** The `Gfx` facade: its resolved state, the canvas it sized, and the
    rendering context, modelled as the log of calls made on it. */
module AltaiGfx {
  import opened Js
  import opened AltaiTypes
  import opened AltaiState
  import opened AltaiPass
  import opened AltaiBeginPass
  import GL = WebGL

  /** The canvas element as far as the facade uses it: its id and size. */
  datatype Canvas = Canvas(id: string, width: int, height: int)

  class Gfx {
    var state: GfxState
    /** The attributes the drawing context was requested with; only the
        context creation, which is not modelled, reads them. */
    ghost var contextAttrs: ContextAttrs
    var canvas: Canvas
    /** Every call made on the rendering context, oldest first. */
    var log: seq<GL.Command>

    /** The canvas is the one named by the state, sized from it, and the
        context was requested with the attributes the state implies. */
    ghost predicate Valid()
      reads this
    {
      canvas == Canvas(state.canvas, state.width, state.height) &&
      contextAttrs == ContextAttrsOf(state)
    }

    /** Resolve the attributes, size the canvas, request the context and set
        the viewport to the whole canvas. */
    constructor (attrs: GfxAttrs)
      ensures Valid()
      ensures state == GfxStateOf(attrs)
      ensures log == [GL.Viewport(0, 0, state.width, state.height)]
    {
      var s := GfxStateOf(attrs);
      state := s;
      contextAttrs := ContextAttrsOf(s);
      canvas := Canvas(s.canvas, s.width, s.height);
      log := [GL.Viewport(0, 0, s.width, s.height)];
    }

    /** `createVertexBuffer`: a buffer of the given usage backed by a new
        WebGL buffer, with no data uploaded. */
    method CreateVertexBuffer(usage: Usage) returns (b: Buffer)
      modifies this`log
      ensures old(Valid()) ==> Valid()
      ensures fresh(b.glBuffer) && b.usage == usage
      ensures log == old(log) + [GL.CreateBuffer(b.glBuffer)]
    {
      var glBuffer := new GL.BufferObject();
      log := log + [GL.CreateBuffer(glBuffer)];
      b := Buffer(usage, glBuffer);
    }

    /** `createVertexBufferWithData`: a new WebGL buffer bound as the array
        buffer and filled with the data as bytes, with the usage hint of the
        buffer's usage; the buffer keeps the usage it was given. */
    method CreateVertexBufferWithData(usage: Usage, data: seq<int>) returns (b: Buffer)
      modifies this`log
      ensures old(Valid()) ==> Valid()
      ensures fresh(b.glBuffer) && b.usage == usage
      ensures log == old(log) + [
        GL.CreateBuffer(b.glBuffer),
        GL.BindBuffer(GL.ARRAY_BUFFER, b.glBuffer),
        GL.BufferData(GL.ARRAY_BUFFER, Uint8ArrayOf(data), GlUsage(usage))]
      ensures UsageOfGl(log[|log| - 1].usage) == Some(b.usage)
    {
      var glBuffer := new GL.BufferObject();
      log := log + [GL.CreateBuffer(glBuffer)];
      log := log + [GL.BindBuffer(GL.ARRAY_BUFFER, glBuffer)];
      var glUsage := GlUsage(usage);
      log := log + [GL.BufferData(GL.ARRAY_BUFFER, Uint8ArrayOf(data), glUsage)];
      b := Buffer(usage, glBuffer);
      GlUsageRoundTrip(usage, glUsage);
    }

    /** `beginPass`: build the pass, reset viewport, scissor and write masks,
        then clear a default pass as its load actions ask. The viewport takes
        the canvas's size at the time of the call, which may differ from the
        size resolved at construction if the canvas was resized since. A pass
        without a colour attachment (an empty array was supplied) fails before
        any call, where `colorAttachments[0].texture` in `beginPass` of
        src/altai.ts throws a TypeError. */
    method BeginPass(attrs: PassAttrs) returns (ok: bool)
      modifies this`log
      ensures old(Valid()) ==> Valid()
      ensures ok <==> attrs.colorAttachments.None? || |attrs.colorAttachments.value| > 0
      ensures ok ==> (|PassOf(attrs).colorAttachments| > 0 &&
        log == old(log) + PassBeginCommands(canvas.width, canvas.height, PassOf(attrs)))
      ensures !ok ==> log == old(log)
    {
      var pass := MakePass(attrs);
      DefaultPassOf(attrs);
      if |pass.colorAttachments| == 0 {
        return false;
      }
      var isDefaultPass := pass.colorAttachments[0].texture.None?;
      var width, height := canvas.width, canvas.height;

      log := log + [GL.Viewport(0, 0, width, height), GL.Disable(GL.SCISSOR_TEST),
        GL.ColorMask(true, true, true, true), GL.DepthMask(true), GL.StencilMask(0xFF)];

      if isDefaultPass {
        var clearMask: bv32 := 0;
        var col := pass.colorAttachments[0];
        var dep := pass.depthAttachment;
        var clears: seq<GL.Command> := [];
        if col.loadAction == LoadAction.Clear {
          clearMask := clearMask | GL.COLOR_BUFFER_BIT;
          clears := clears + [GL.ClearColor(col.clearColor.r, col.clearColor.g, col.clearColor.b, col.clearColor.a)];
        }
        if dep.loadAction == LoadAction.Clear {
          clearMask := clearMask | GL.DEPTH_BUFFER_BIT | GL.STENCIL_BUFFER_BIT;
          clears := clears + [GL.ClearDepth(dep.clearDepth), GL.ClearStencil(dep.clearStencil)];
        }
        assert clearMask == ClearMask(col, dep);
        if clearMask != 0 {
          clears := clears + [GL.Clear(clearMask)];
        }
        assert clears == ClearCommands(col, dep);
        log := log + clears;
      }
      ok := true;
    }

    /** `applyViewPort`: one `viewport` call with the given rectangle. */
    method ApplyViewPort(x: int, y: int, width: int, height: int)
      modifies this`log
      ensures old(Valid()) ==> Valid()
      ensures log == old(log) + [GL.Viewport(x, y, width, height)]
    {
      log := log + [GL.Viewport(x, y, width, height)];
    }

    /** `applyScissorRect`: one `scissor` call with the given rectangle; the
        scissor test itself is not enabled. */
    method ApplyScissorRect(x: int, y: int, width: int, height: int)
      modifies this`log
      ensures old(Valid()) ==> Valid()
      ensures log == old(log) + [GL.Scissor(x, y, width, height)]
    {
      log := log + [GL.Scissor(x, y, width, height)];
    }
  }

  /** The pass attributes of the clear example application. */
  function ClearExampleAttrs(color: Rgba): PassAttrs {
    PassAttrs(Some([NoColorAttachmentAttrs.(clearColor := Some(color))]), None, None)
  }

  /** What beginning the clear example's pass issues on a 400x300 canvas,
      and that it holds one `clear`. */
  lemma ClearExamplePassCommands(color: Rgba)
    ensures var pass := PassOf(ClearExampleAttrs(color));
      |pass.colorAttachments| > 0 &&
      var cmds := PassBeginCommands(400, 300, pass);
      cmds == ResetCommands(400, 300) +
        [GL.ClearColor(color.r, color.g, color.b, color.a), GL.ClearDepth(1.0), GL.ClearStencil(0),
         GL.Clear(GL.COLOR_BUFFER_BIT | GL.DEPTH_BUFFER_BIT | GL.STENCIL_BUFFER_BIT)] &&
      GL.ClearCount([GL.Viewport(0, 0, 400, 300)] + cmds) == 1
  {
    var pass := PassOf(ClearExampleAttrs(color));
    var col := ColorAttachment(None, 0, 0, LoadAction.Clear, color);
    var dep := DepthAttachment(None, LoadAction.Clear, 1.0, 0);
    assert pass.colorAttachments == [col] && pass.depthAttachment == dep;
    assert ClearMask(col, dep) == GL.COLOR_BUFFER_BIT | GL.DEPTH_BUFFER_BIT | GL.STENCIL_BUFFER_BIT;
    var cmds := PassBeginCommands(400, 300, pass);
    assert cmds == ResetCommands(400, 300) + ClearCommands(col, dep);
    ClearIssuedOnce(400, 300, pass);
    GL.ClearCountAppend([GL.Viewport(0, 0, 400, 300)], cmds);
  }

  /** The frame of the clear example application: a 400x300 facade, then a
      pass whose one canvas attachment is cleared to the colour of the
      frame, with depth and stencil cleared by default; one `clear` call. */
  method ClearExampleFrame(color: Rgba) returns (gfx: Gfx)
    ensures fresh(gfx) && gfx.Valid()
    ensures gfx.log == [GL.Viewport(0, 0, 400, 300)] + ResetCommands(400, 300) +
      [GL.ClearColor(color.r, color.g, color.b, color.a), GL.ClearDepth(1.0), GL.ClearStencil(0),
       GL.Clear(GL.COLOR_BUFFER_BIT | GL.DEPTH_BUFFER_BIT | GL.STENCIL_BUFFER_BIT)]
    ensures GL.ClearCount(gfx.log) == 1
  {
    gfx := new Gfx(GfxAttrs(None, Some(400), Some(300), None, None, None, None));
    ClearExamplePassCommands(color);
    var ok := gfx.BeginPass(ClearExampleAttrs(color));
  }

  /** A page that resizes the canvas after construction: the next pass sets
      the viewport to the new size, not the size the facade was built with. */
  method ResizedCanvasPass(width: int, height: int) returns (gfx: Gfx)
    ensures fresh(gfx) && gfx.state.width == 640 && gfx.state.height == 480
    ensures |gfx.log| > 1 && gfx.log[1] == GL.Viewport(0, 0, width, height)
  {
    gfx := new Gfx(GfxAttrs(None, None, None, None, None, None, None));
    gfx.canvas := gfx.canvas.(width := width, height := height);
    var ok := gfx.BeginPass(PassAttrs(None, None, None));
  }
}
