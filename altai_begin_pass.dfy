/** What `Gfx.beginPass` asks of the rendering context, as a function of the
    canvas size and the pass, and the properties of that call sequence. */
module AltaiBeginPass {
  import opened AltaiTypes
  import opened AltaiPass
  import GL = WebGL

  /** The state reset every pass begins with, whatever the pass: full-canvas
      viewport, no scissor test, and all colour, depth and stencil bits
      writable so that a clear reaches them. */
  function ResetCommands(width: int, height: int): (cmds: seq<GL.Command>)
    ensures |cmds| == 5
    ensures forall i :: 0 <= i < |cmds| ==> !GL.IsClearing(cmds[i])
  {
    [GL.Viewport(0, 0, width, height),
     GL.Disable(GL.SCISSOR_TEST),
     GL.ColorMask(true, true, true, true),
     GL.DepthMask(true),
     GL.StencilMask(0xFF)]
  }

  /** The buffers a default pass clears: colour iff the colour attachment's
      load action is Clear, depth and stencil together iff the depth
      attachment's is, and nothing else. */
  function ClearMask(col: ColorAttachment, dep: DepthAttachment): (mask: bv32)
    ensures (mask & GL.COLOR_BUFFER_BIT != 0) <==> col.loadAction == LoadAction.Clear
    ensures (mask & GL.DEPTH_BUFFER_BIT != 0) <==> dep.loadAction == LoadAction.Clear
    ensures (mask & GL.STENCIL_BUFFER_BIT != 0) <==> dep.loadAction == LoadAction.Clear
    ensures mask & !(GL.COLOR_BUFFER_BIT | GL.DEPTH_BUFFER_BIT | GL.STENCIL_BUFFER_BIT) == 0
    ensures mask != 0 <==> col.loadAction == LoadAction.Clear || dep.loadAction == LoadAction.Clear
  {
    (if col.loadAction == LoadAction.Clear then GL.COLOR_BUFFER_BIT else 0) |
    (if dep.loadAction == LoadAction.Clear then GL.DEPTH_BUFFER_BIT | GL.STENCIL_BUFFER_BIT else 0)
  }

  /** The clear of a default pass: the clear values of the parts being
      cleared, then a single `clear` with their mask, if there is any. */
  function ClearCommands(col: ColorAttachment, dep: DepthAttachment): (cmds: seq<GL.Command>)
    ensures |cmds| <= 4
    ensures forall i :: 0 <= i < |cmds| ==> GL.IsClearing(cmds[i])
    ensures cmds == [] <==> col.loadAction != LoadAction.Clear && dep.loadAction != LoadAction.Clear
  {
    (if col.loadAction == LoadAction.Clear
     then [GL.ClearColor(col.clearColor.r, col.clearColor.g, col.clearColor.b, col.clearColor.a)]
     else []) +
    (if dep.loadAction == LoadAction.Clear
     then [GL.ClearDepth(dep.clearDepth), GL.ClearStencil(dep.clearStencil)]
     else []) +
    (var mask := ClearMask(col, dep); if mask != 0 then [GL.Clear(mask)] else [])
  }

  /** Every call `beginPass` makes for a pass with at least one colour
      attachment on a canvas of the given size. Only the first colour
      attachment and the depth attachment of a default pass are cleared; a
      textured pass is not cleared at all. */
  function PassBeginCommands(width: int, height: int, pass: Pass): (cmds: seq<GL.Command>)
    requires |pass.colorAttachments| > 0
    ensures 5 <= |cmds| <= 9 && cmds[..5] == ResetCommands(width, height)
    ensures !IsDefaultPass(pass) ==> |cmds| == 5
  {
    ResetCommands(width, height) +
    (if IsDefaultPass(pass) then ClearCommands(pass.colorAttachments[0], pass.depthAttachment) else [])
  }

  /** The reset comes first and always uses the canvas size, also for a
      textured pass; everything after it is a clear value or the clear. */
  lemma ResetPrecedesClear(width: int, height: int, pass: Pass)
    requires |pass.colorAttachments| > 0
    ensures var cmds := PassBeginCommands(width, height, pass);
      |cmds| >= 5 && cmds[..5] == ResetCommands(width, height) &&
      cmds[0] == GL.Viewport(0, 0, width, height) &&
      forall i :: 5 <= i < |cmds| ==> GL.IsClearing(cmds[i])
  {
  }

  /** `clear` is issued exactly once when a default pass has something to
      clear, and never otherwise; when issued it is the last call. */
  lemma {:induction false} ClearIssuedOnce(width: int, height: int, pass: Pass)
    requires |pass.colorAttachments| > 0
    ensures var cmds := PassBeginCommands(width, height, pass);
      var col, dep := pass.colorAttachments[0], pass.depthAttachment;
      var clears := IsDefaultPass(pass) &&
        (col.loadAction == LoadAction.Clear || dep.loadAction == LoadAction.Clear);
      GL.ClearCount(cmds) == (if clears then 1 else 0) &&
      (clears ==> cmds[|cmds| - 1] == GL.Clear(ClearMask(col, dep)))
  {
    var col, dep := pass.colorAttachments[0], pass.depthAttachment;
    var reset := ResetCommands(width, height);
    GL.ClearCountAppend(reset, if IsDefaultPass(pass) then ClearCommands(col, dep) else []);
    if IsDefaultPass(pass) {
      var a := if col.loadAction == LoadAction.Clear
        then [GL.ClearColor(col.clearColor.r, col.clearColor.g, col.clearColor.b, col.clearColor.a)]
        else [];
      var b := if dep.loadAction == LoadAction.Clear
        then [GL.ClearDepth(dep.clearDepth), GL.ClearStencil(dep.clearStencil)]
        else [];
      var mask := ClearMask(col, dep);
      var c := if mask != 0 then [GL.Clear(mask)] else [];
      GL.ClearCountAppend(a, b);
      GL.ClearCountAppend(a + b, c);
    }
  }

  /** A clear value is set only for a part that is cleared: the colour only
      when a default pass clears colour, depth and stencil values only when
      it clears depth. The values set are those of the attachments. */
  lemma ClearValuesOnlyWhenCleared(width: int, height: int, pass: Pass)
    requires |pass.colorAttachments| > 0
    ensures var cmds := PassBeginCommands(width, height, pass);
      ((exists i :: 0 <= i < |cmds| && cmds[i].ClearColor?) <==>
        IsDefaultPass(pass) && pass.colorAttachments[0].loadAction == LoadAction.Clear) &&
      ((exists i :: 0 <= i < |cmds| && cmds[i].ClearDepth?) <==>
        IsDefaultPass(pass) && pass.depthAttachment.loadAction == LoadAction.Clear) &&
      ((exists i :: 0 <= i < |cmds| && cmds[i].ClearStencil?) <==>
        IsDefaultPass(pass) && pass.depthAttachment.loadAction == LoadAction.Clear) &&
      var col, dep := pass.colorAttachments[0], pass.depthAttachment;
      forall i :: 0 <= i < |cmds| ==>
        (cmds[i].ClearColor? ==>
          cmds[i] == GL.ClearColor(col.clearColor.r, col.clearColor.g, col.clearColor.b, col.clearColor.a)) &&
        (cmds[i].ClearDepth? ==> cmds[i] == GL.ClearDepth(dep.clearDepth)) &&
        (cmds[i].ClearStencil? ==> cmds[i] == GL.ClearStencil(dep.clearStencil))
  {
    var cmds := PassBeginCommands(width, height, pass);
    if IsDefaultPass(pass) && pass.colorAttachments[0].loadAction == LoadAction.Clear {
      assert cmds[5].ClearColor?;
    }
    if IsDefaultPass(pass) && pass.depthAttachment.loadAction == LoadAction.Clear {
      var k := if pass.colorAttachments[0].loadAction == LoadAction.Clear then 6 else 5;
      assert cmds[k].ClearDepth? && cmds[k + 1].ClearStencil?;
    }
  }

  /** Load and DontCare are not told apart: two passes that differ only in
      which of the two their attachments use begin identically. */
  lemma LoadActsAsDontCare(width: int, height: int, p: Pass, q: Pass)
    requires |p.colorAttachments| > 0 && |q.colorAttachments| > 0
    requires p.colorAttachments[0].(loadAction := LoadAction.DontCare) ==
             q.colorAttachments[0].(loadAction := LoadAction.DontCare)
    requires p.depthAttachment.(loadAction := LoadAction.DontCare) ==
             q.depthAttachment.(loadAction := LoadAction.DontCare)
    requires (p.colorAttachments[0].loadAction == LoadAction.Clear) ==
             (q.colorAttachments[0].loadAction == LoadAction.Clear)
    requires (p.depthAttachment.loadAction == LoadAction.Clear) ==
             (q.depthAttachment.loadAction == LoadAction.Clear)
    ensures PassBeginCommands(width, height, p) == PassBeginCommands(width, height, q)
  {
  }

  /** A pass with a texture on its first colour attachment only resets
      state: the offscreen path issues no clear. */
  lemma TexturedPassOnlyResets(width: int, height: int, pass: Pass)
    requires |pass.colorAttachments| > 0 && !IsDefaultPass(pass)
    ensures PassBeginCommands(width, height, pass) == ResetCommands(width, height)
  {
  }

  /** `beginPass({})`: the canvas is cleared to opaque black, depth 1.0 and
      stencil 0, with a single combined clear. */
  lemma EmptyAttrsClearEverything(width: int, height: int)
    ensures var pass := PassOf(PassAttrs(Js.None, Js.None, Js.None));
      |pass.colorAttachments| > 0 &&
      PassBeginCommands(width, height, pass) == ResetCommands(width, height) +
        [GL.ClearColor(0.0, 0.0, 0.0, 1.0), GL.ClearDepth(1.0), GL.ClearStencil(0),
         GL.Clear(GL.COLOR_BUFFER_BIT | GL.DEPTH_BUFFER_BIT | GL.STENCIL_BUFFER_BIT)]
  {
  }

  /** A canvas pass that clears colour and leaves depth DontCare clears
      colour only. */
  lemma ColorOnlyClear(width: int, height: int, color: Rgba)
    ensures var pass := PassOf(PassAttrs(
        Js.Some([NoColorAttachmentAttrs.(clearColor := Js.Some(color))]),
        Js.Some(NoDepthAttachmentAttrs.(loadAction := Js.Some(LoadAction.DontCare))),
        Js.None));
      |pass.colorAttachments| > 0 &&
      PassBeginCommands(width, height, pass) == ResetCommands(width, height) +
        [GL.ClearColor(color.r, color.g, color.b, color.a), GL.Clear(GL.COLOR_BUFFER_BIT)]
  {
  }
}
