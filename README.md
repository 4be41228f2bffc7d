# SSRRPass: a verified model of the screen-space reflection pass's control skeleton

`SSRRPass` is a three.js post-processing pass that adds screen-space
reflections. Its shading runs on the GPU in shader programs. Around those
programs sits a small, sequential control skeleton. It does the following:

- It resolves constructor options against defaults.
- It keeps three intermediate render targets at the same scaled size: the
  packed normal/roughness buffer, the front-face depth buffer and the
  back-face depth buffer.
- It releases resources on `dispose`.
- Each frame, it saves six pieces of renderer and scene state, then forces
  the pass settings: no scene auto-update, no shadows, auto-clear on, and a
  transparent black clear.
- It runs up to three scene passes in a fixed order: packed, front depth,
  then back-face depth.
- After a pass it may stop early to show a debug view of a buffer.
  Otherwise it brings the composite material's compile-time defines up to
  date and draws the composite.
- It writes the saved state back on each of its five exit paths: four
  `return`s and normal completion.

The model keeps this skeleton and treats three.js as a collaborator. Those
parts live in `three.dfy`:

- The renderer is a class holding the settings the pass touches: bound
  render target, clear colour, clear alpha, `autoClear` and
  `shadowMap.enabled`.
- The renderer also keeps a log of draws. Each `clear()`, scene
  `render(scene, camera)` and full-screen quad draw appends one `Event`.
  Every event records its target. A clear also records the clear colour and
  alpha, a scene draw records the override material and the draw settings
  in force, and a quad draw records the image it shows.
- The scene is a class with `overrideMaterial` and `autoUpdate`.
- Render targets are objects with a size and a `disposed` flag. A texture is
  identified with its render target.
- Materials and shaders are opaque identifiers.

`ssrr_pass.dfy` holds the pass itself:

- `SSRRPass` has the source's fields, with three differences:
  - the three per-instance materials `_packedMaterial`, `_depthMaterial` and
    `_backfaceDepthMaterial` are module constants, identified by shader and
    side, so every instance shares them;
  - `debug.display` is the field `display`;
  - the extra field `shared` refers to the module-level state below.
- `ModuleState` holds the module-level state all instances share: the
  `_prevClearColor` slot and the uniforms of the two debug display
  materials.
- `CompositeMaterial` holds the composite material's uniforms, its
  `MAX_STEPS` and `BINARY_SEARCH_ITERATIONS` defines, and `needsUpdate`.
- `SSRRPass.Render` is proved to append exactly `FrameLog(frame)` to the
  renderer's log. It is also proved to leave the saved state as it found it.
- `render` is one JavaScript function. The model runs it as `Render`, which
  covers the packed pass and the NORMAL/ROUGHNESS exits, plus
  `RenderDepthStages`, which covers the rest. Each of the five exits calls
  `ReplaceOriginalValues` itself, as the source does.

`frame_properties.dfy` proves what a frame does, from `FrameLog`:

- which passes run for each `debug.display` value, and in what order;
- the settings every scene pass runs under;
- that every frame ends in exactly one full-screen draw to the final buffer;
- that a view samples only buffers drawn earlier in the same frame;
- when the composite material is marked for recompilation across frames.

Numbers are Dafny `real`s, and `Math.floor` is `real.Floor`. `debug.display`
is an `int` compared against the constants `DEFAULT` = 0 through
`INTERSECTION_COLORS` = 6.

Behaviour of the code worth knowing:

- `setSize` applies no flooring. The buffers get exactly
  `width * renderTargetScale` by `height * renderTargetScale`.
- The passes run packed first, then front depth, then back-face depth.
- Negative `steps` are not clamped. They are floored like any other value.
- `render` called before any `setSize` draws into buffers of 256 by 256, the
  size they are created with.
- The clear colour is not restored. `replaceOriginalValues` passes
  `this._prevClearColor`, a field nothing assigns; the colour is saved into
  the module-level `_prevClearColor` instead. In the model, the restoring
  call is `SetClearColor(None, alpha)`. That call leaves the clear colour
  unspecified, and no contract claims anything about it after a frame.

## Model

| member | source | states |
|---|---|---|
| `SSRR.ResolveOptions` | screenSpaceReflectionsPass/src/SSRRPass.js:45-49 | each option takes the supplied value when its key is present; otherwise it takes the default: intensity 0.5, steps 10, binarySearchSteps 4, stride 30, renderTargetScale 0.5 |
| `SSRR.SSRRPass.constructor` | screenSpaceReflectionsPass/src/SSRRPass.js:38-90 | the parameters are the resolved options; `debug.display` starts as DEFAULT; the pass is enabled and swaps; three fresh, distinct 256x256 buffers are created with their names; the composite material starts from the shader's declared uniforms and defines |
| `SSRR.SSRRPass.Dispose` | screenSpaceReflectionsPass/src/SSRRPass.js:92-98 | the depth buffer, the packed buffer and the composite quad are disposed; the back-face depth buffer's disposal state is unchanged |
| `SSRR.SSRRPass.SetSize` | screenSpaceReflectionsPass/src/SSRRPass.js:100-109 | all three buffers get the identical size `(width * renderTargetScale, height * renderTargetScale)`, with no flooring |
| `SSRR.SSRRPass.ReplaceOriginalValues` | screenSpaceReflectionsPass/src/SSRRPass.js:127-137 | override material, bound target, clear alpha, autoClear, shadow-map flag and scene auto-update equal the saved values; the clear colour is not restored |
| `SSRR.SSRRPass.ForcePassSettings` | screenSpaceReflectionsPass/src/SSRRPass.js:148-151 | afterwards draws see no scene auto-update, shadows off, autoClear on, and a clear to black with alpha 0 |
| `SSRR.SSRRPass.RunScenePass` | screenSpaceReflectionsPass/src/SSRRPass.js:156-159 | a scene pass installs its override material, binds its target, clears it, then draws the scene; the log grows by exactly that clear and that draw |
| `SSRR.SSRRPass.ShowPacked` | screenSpaceReflectionsPass/src/SSRRPass.js:160-184 | the NORMAL/ROUGHNESS view clears the final buffer and draws the packed buffer with `displayRoughness` as given; the shared debug uniforms hold those values |
| `SSRR.SSRRPass.ShowDepth` | screenSpaceReflectionsPass/src/SSRRPass.js:196-226 | the depth views clear the final buffer and draw the given depth buffer with `divide = camera.far`; the shared debug uniforms hold those values |
| `SSRR.SSRRPass.DrawComposite` | screenSpaceReflectionsPass/src/SSRRPass.js:237-267 | the composite receives the source, the three generated buffers, intensity and stride; each define is rewritten to the floor of its parameter, and `needsUpdate` is set, only when the define `!==` the parameter; then the composite is drawn on the final buffer |
| `SSRR.SSRRPass.UpdateDefines` | screenSpaceReflectionsPass/src/SSRRPass.js:251-263 | each of `MAX_STEPS` and `BINARY_SEARCH_ITERATIONS` becomes the floor of its parameter when it is not strictly equal to it, and is otherwise unchanged; `needsUpdate` becomes true exactly when one of them was rewritten, and otherwise keeps its value |
| `SSRR.SSRRPass.RenderDepthStages` | screenSpaceReflectionsPass/src/SSRRPass.js:186-269 | from the front-depth pass on, the log grows by `DepthStagesLog`; the saved state is written back on the FRONT_DEPTH, BACK_DEPTH and composite exits; the composite material changes only on the composite path |
| `SSRR.SSRRPass.Render` | screenSpaceReflectionsPass/src/SSRRPass.js:111-272 | the log grows by exactly `FrameLog` of this frame; on each of the five exit paths (four `return`s and normal completion), the saved state equals its value at entry; `_prevClearColor` holds the entry clear colour; the composite material and the debug uniforms change only as the taken path dictates |
| `SSRR.SyncDefine` | screenSpaceReflectionsPass/src/SSRRPass.js:251-263 | the material is marked exactly when the stored define is not strictly equal to the parameter; a rewritten define holds the floor of the parameter, and an unchanged one keeps its stored value |
| `FrameProperties.PassesPerDisplay` | screenSpaceReflectionsPass/src/SSRRPass.js:156-226 | the scene passes of a frame are the first 1, 2 or 3 of packed, front depth, back-face depth: 1 for NORMAL/ROUGHNESS, 2 for FRONT_DEPTH, 3 otherwise |
| `FrameProperties.OneViewPerFrame` | screenSpaceReflectionsPass/src/SSRRPass.js:160-267 | every frame has exactly one full-screen draw; it is the last event and targets the final buffer; it is the composite if and only if `display` is none of FRONT_DEPTH, BACK_DEPTH, NORMAL, ROUGHNESS |
| `FrameProperties.CompositePathLog` | screenSpaceReflectionsPass/src/SSRRPass.js:139-267 | for DEFAULT, INTERSECTION_RESULTS, INTERSECTION_COLORS and any other untested value, the frame is exactly: packed pass, front-depth pass, back-face pass, composite on the final buffer |
| `FrameProperties.FramePassDiscipline` | screenSpaceReflectionsPass/src/SSRRPass.js:148-159 | in every frame, each clear is to transparent black; each scene draw runs with no auto-update, no shadows, autoClear on and alpha 0; each scene draw comes right after a clear of its own target |
| `FrameProperties.FrameSamplesOnlyDrawn` | screenSpaceReflectionsPass/src/SSRRPass.js:165-243 | every generated buffer a debug view or the composite samples was drawn into by an earlier scene pass of the same frame |
| `FrameProperties.RecompilesEveryFrameIffFractional` | screenSpaceReflectionsPass/src/SSRRPass.js:251-263 | if a define starts as an integer, it stays one; with the same parameter on two frames, the second frame marks for recompilation if and only if the parameter is not an integer |

## Left out

- The shader programs are not modelled: composite, packed, linear depth and the debug display shaders. They hold the ray march and the reconstruction maths. Here they are only identities. What the composite shader declares as initial uniforms and defines is a constructor parameter.
- GPU effects are not modelled: clearing, drawing, texture allocation and render-target internals. Each is a log entry or a field write.
- The projection matrix, its inverse and the `resolution` uniform are not modelled (lines 244-246). They are floating-point matrix work with no stated behaviour beyond "the uniform receives the value".
- `SSRR.SSRRPass.Render`: its contract says nothing about the renderer's clear colour after a frame. The code restores it from a field that is never assigned, so the outcome depends on how three.js treats an `undefined` colour. That behaviour is not part of this model.
- `SSRR.SSRRPass.Render`: exits by exception are not modelled. Every three.js call succeeds and `readBuffer` is non-null here. `render` has no `try`/`finally`, so in the source a throw mid-frame (for instance reading `readBuffer.texture` at line 239 when `readBuffer` is null) skips `replaceOriginalValues` and leaves the forced settings in place.
- `SSRR.SSRRPass.Dispose`: states only which objects it disposes. Resource release inside three.js is not modelled.
- Numbers are unbounded reals. NaN, infinities, and option or `display` values that are not numbers are not modelled.
- `needsUpdate` is a boolean that the pass sets. three.js's material version counter and the recompilation itself are not modelled.
- The `delta` and `maskActive` parameters of `render` are not modelled because the code never reads them. The same goes for the commented-out timing calls.
- Each instance's own material objects (`_packedMaterial`, `_depthMaterial`, `_backfaceDepthMaterial`) are not modelled as separate objects. They are shared values, which is enough because after construction (where the back-face material gets `side = BackSide`, line 72) the pass only installs them as override materials and never changes or disposes them.
- The base `Pass` class is not part of this model. `renderToScreen` is modelled as starting `false`.
- `scene` and `camera` are fixed at construction. The JavaScript fields could be reassigned, but this file never does so.
- Render-target filter, format, type and mipmap settings are not modelled. They only configure GPU textures.
