# altai Gfx facade — Dafny model

A model of the `altai.Gfx` facade in `src/altai.ts`: a thin layer over a
WebGL 1.0 rendering context. It covers three things:

- **Option resolution.** The `some` default helper, the `GfxState` built
  from `GfxAttrs`, and the drawing-context attributes derived from that state.
  Also the `ColorAttachment`, `DepthAttachment` and `Pass` objects built from
  their attribute records. The `Pass` constructor's push loop is a method.
- **Pass begin.** `beginPass` is a method of the `Gfx` class. It appends
  to the class's `log`, the sequence of calls made on the rendering context.
  Its calls are specified by `PassBeginCommands`, and lemmas state the
  properties of that call sequence:
  - the reset comes first;
  - a single `clear` is issued, and only when something is cleared;
  - clear values are set only for the parts cleared;
  - Load behaves like DontCare;
  - a textured pass is never cleared.
- **Buffers.** `GLTypes.usage` and its inverse, and the vertex-buffer
  creation calls.

The modules are:

- `Js`: optional values and `some`.
- `WebGL`: the constants and calls of the context.
- `AltaiTypes`: the enums, `GLTypes` and `Buffer`.
- `AltaiState`: `GfxState` and the context attributes.
- `AltaiPass`: the attachments and `Pass`.
- `AltaiBeginPass`: what `beginPass` issues.
- `AltaiGfx`: the `Gfx` class.

Modelling choices:

- JavaScript `null` and `undefined` are both `None`. `some` tests with
  `!= null`, which does not tell them apart.
- `Texture` and the WebGL buffer handle are opaque objects.
- Clear colours and depths are `real` and are only passed on.
- Sizes, mip levels, slices and stencil values are `int`.
- The canvas is a record whose size the constructor takes from the state.
- The clear mask is a `bv32`. The WebGL enums are the values in section 5.14
  of the WebGL 1.0 specification.

The model follows the code as written, including where it does less than
its comments and FIXMEs suggest:

- Only the first colour attachment of a default pass is cleared.
- A pass whose first colour attachment has a texture is not bound and not
  cleared. The offscreen branch is empty.
- The viewport is always the canvas size, also for a textured pass.
- The context is requested with `alpha: false` and `antialias` equal to the
  `msaa` attribute, which defaults to false.
- A `Pass` is built anew on every `beginPass` call from its attribute record.

## Model

| member | source | states |
|---|---|---|
| `Js.SomeOr` | src/altai.ts:7-9 | the supplied value whenever it is present (so 0, false and "" are kept); the default exactly when it is null or undefined |
| `Js.SomeOrDefaultOnlyWhenAbsent` | src/altai.ts:7-9 | the result equals the default iff the option is absent or holds the default itself |
| `Js.ToUint8` | src/altai.ts:39 | the byte stored for an integral number is congruent to it modulo 256, and equal to it when it lies in 0..255 |
| `Js.Uint8ArrayOf` | src/altai.ts:39 | `new Uint8Array(data)` has one byte per number, in order, each congruent to it modulo 256 and equal to it when it fits |
| `AltaiTypes.GlUsage` | src/altai.ts:480-487 | Immutable, Dynamic and Stream map to STATIC_DRAW, DYNAMIC_DRAW and STREAM_DRAW, each hint iff its usage |
| `AltaiTypes.UsageOfGl` | src/altai.ts:480-487 | the inverse mapping is defined on exactly the three usage hints |
| `AltaiTypes.GlUsageRoundTrip` | src/altai.ts:481-487 | decoding the hint of a usage gives that usage back, and a hint that decodes to a usage is that usage's hint |
| `AltaiTypes.GlUsageInjective` | src/altai.ts:481-487 | distinct usages get distinct hints |
| `AltaiState.GfxStateOf` | src/altai.ts:128-136 | each field is the supplied attribute when present and its own default otherwise: "canvas", 640, 480, RGBA8, DEPTHSTENCIL, false, false |
| `AltaiState.FalsyAttrsAreKept` | src/altai.ts:128-135 | a supplied empty canvas name, zero width or false msaa is not replaced by the default |
| `AltaiState.ContextAttrsOf` | src/altai.ts:15-22 | depth iff the depth format is not NONE, stencil iff it is DEPTHSTENCIL, so stencil implies depth; antialias equals msaa; alpha, premultiplied alpha and preserved drawing buffer are always off |
| `AltaiState.DefaultGfx` | src/altai.ts:15-22 | with no attributes the state is the default one and the context gets depth and stencil and no antialiasing |
| `AltaiPass.ColorAttachmentOf` | src/altai.ts:421-427 | texture as given; mip level 0, slice 0, load action Clear and colour (0,0,0,1) unless supplied |
| `AltaiPass.DepthAttachmentOf` | src/altai.ts:444-449 | texture as given; load action Clear, depth 1.0 and stencil 0 unless supplied |
| `AltaiPass.ColorAttachmentsOf` | src/altai.ts:470-472 | one attachment per attribute entry, same length, entry i built from attribute entry i |
| `AltaiPass.PassOf` | src/altai.ts:464-476 | absent colour attributes give exactly one canvas attachment cleared to (0,0,0,1); otherwise one attachment per entry, so an empty array gives none; the depth attachment always exists and defaults to Clear, 1.0, 0; the store action defaults to DontCare |
| `AltaiPass.MakePass` | src/altai.ts:464-476 | the push loop of the constructor builds exactly `PassOf(attrs)` |
| `AltaiPass.IsDefaultPass` | src/altai.ts:45 | `!texture` on the first colour attachment: a pass is the default pass iff that texture is null or undefined |
| `AltaiPass.DefaultPassOf` | src/altai.ts:44-45 | a pass has a first colour attachment unless an empty array was supplied, and is the default pass iff no colour attributes were given or the first has no texture |
| `AltaiBeginPass.ResetCommands` | src/altai.ts:57-61 | five state resets, none of which sets a clear value or clears |
| `AltaiBeginPass.ClearMask` | src/altai.ts:64-72 | the colour bit iff the colour load action is Clear, the depth and stencil bits iff the depth load action is Clear, no other bit, and nonzero iff either is Clear |
| `AltaiBeginPass.ClearCommands` | src/altai.ts:63-78 | at most four calls, all of them clear values or the clear, and none at all iff neither load action is Clear |
| `AltaiBeginPass.PassBeginCommands` | src/altai.ts:50-82 | every pass begins with the five resets, adds at most four calls after them, and a pass that is not the default pass adds none |
| `AltaiBeginPass.ResetPrecedesClear` | src/altai.ts:50-61 | every pass begins with viewport (0,0,canvas size), scissor off, all colour bits, depth and stencil mask 0xFF writable, then only clear calls |
| `AltaiBeginPass.ClearIssuedOnce` | src/altai.ts:63-79 | `clear` is issued exactly once, as the last call with the mask of the load actions, when a default pass clears colour or depth, and never otherwise |
| `AltaiBeginPass.ClearValuesOnlyWhenCleared` | src/altai.ts:67-75 | the clear colour is set iff a default pass clears colour; clear depth and stencil are set iff it clears depth; the values set are the first colour attachment's clear colour and the depth attachment's clear depth and stencil |
| `AltaiBeginPass.LoadActsAsDontCare` | src/altai.ts:67-75 | passes that differ only in using Load or DontCare begin with identical calls |
| `AltaiBeginPass.TexturedPassOnlyResets` | src/altai.ts:63-82 | a pass with a texture on its first colour attachment issues the reset and no clear |
| `AltaiBeginPass.EmptyAttrsClearEverything` | src/altai.ts:63-78 | `beginPass({})` clears colour to (0,0,0,1), depth to 1.0 and stencil to 0 with one combined clear |
| `AltaiBeginPass.ColorOnlyClear` | src/altai.ts:63-78 | a canvas pass clearing colour with depth DontCare sets the clear colour and clears the colour buffer only |
| `AltaiGfx.Gfx.constructor` | src/altai.ts:12-29 | the state is resolved from the attributes, the canvas takes its size, the context attributes are derived from it, and the viewport is set to the whole canvas |
| `AltaiGfx.Gfx.CreateVertexBuffer` | src/altai.ts:31-33 | a buffer with the given usage and a new WebGL buffer; one `createBuffer` call |
| `AltaiGfx.Gfx.CreateVertexBufferWithData` | src/altai.ts:35-41 | create, bind as ARRAY_BUFFER, upload the data as bytes with the usage's hint; the buffer keeps its usage, which the uploaded hint decodes back to |
| `AltaiGfx.Gfx.BeginPass` | src/altai.ts:43-83 | fails with no call iff an empty colour array was supplied; otherwise appends exactly `PassBeginCommands` for the canvas's current size (also after a resize) and the pass built from the attributes; keeps the canvas consistent with the state if it was |
| `AltaiGfx.Gfx.ApplyViewPort` | src/altai.ts:87-89 | one viewport call with the given rectangle |
| `AltaiGfx.Gfx.ApplyScissorRect` | src/altai.ts:90-92 | one scissor call with the given rectangle |
| `AltaiGfx.ResizedCanvasPass` | src/altai.ts:50-57 | after the canvas is resized, the next pass sets the viewport to the new size while the state keeps 640x480 |
| `AltaiGfx.ClearExamplePassCommands` | examples/clear.ts:10-19 | beginning the clear example's pass on a 400x300 canvas issues the reset, the frame's clear colour, depth 1.0, stencil 0 and one combined clear |
| `AltaiGfx.ClearExampleFrame` | examples/clear.ts:9-19 | the clear example's first frame sets the viewport, resets, sets colour, depth and stencil clear values and issues one combined clear |

## Left out

- Looking up the canvas element and creating the WebGL context are not modelled (src/altai.ts:23-28). That includes the fall-back to "experimental-webgl" and a context that cannot be created. The canvas is a record sized from the state.
- The WebGL driver itself is a log of calls. What `createBuffer` and `bufferData` do on the GPU is not modelled; a buffer handle is an opaque fresh object.
- `endPass`, `applyDrawState`, `applyUniform` and `draw` are empty stubs in the source and are left out.
- `commitFrame` hands a callback to the browser's frame scheduler and is left out.
- `DrawState`, `Shader`, `Pipeline` and the vertex, blend, stencil and rasterizer descriptions are declarations with no behaviour and are left out. So are the state cache, vertex-layout resolution, offscreen framebuffers, multiple render targets, MSAA resolve and indexed drawing, none of which the code implements.
- Numbers are `int` or `real`, not IEEE doubles. NaN, infinities and fractional sizes are not modelled.
- `Js.Uint8ArrayOf` covers integral numbers only. The truncation and NaN-to-zero steps of ToUint8 are not modelled.
- Setting the canvas size is not modelled: the HTML `width` and `height` setters truncate a fractional size, and a negative size or one above 2147483647 falls back to the default of 300 wide or 150 high (src/altai.ts:24-25). The model keeps the state's value, so `new Gfx({width: -1})` logs `Viewport(0, 0, -1, …)` here where the browser would use 300.
- A `null` entry inside a `colorAttachments` array makes the constructor throw. Attribute entries are records here, so this case does not arise.
- `MaxNumColorAttachments` is declared but never consulted. The model does not bound the number of colour attachments.
