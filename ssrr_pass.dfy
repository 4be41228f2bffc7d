/**
 * The screen-space reflection pass (`SSRRPass`): its options and defaults,
 * the three intermediate buffers and their resize and disposal, and the
 * per-frame `render` that saves the renderer's state, runs up to three scene
 * passes, may stop early to show a debug view, otherwise draws the
 * composite, and puts the saved state back on each of its five exit paths.
 */
module SSRR {
  import opened Wrappers
  import opened Three

  // The values `debug.display` is compared against.
  const DEFAULT: int := 0
  const FRONT_DEPTH: int := 1
  const BACK_DEPTH: int := 2
  const NORMAL: int := 3
  const ROUGHNESS: int := 4
  const INTERSECTION_RESULTS: int := 5
  const INTERSECTION_COLORS: int := 6

  /** The four modes that `render` tests; every other value of `display` reaches the composite. */
  predicate IsDebugDisplay(display: int)
  {
    display == FRONT_DEPTH || display == BACK_DEPTH || display == NORMAL || display == ROUGHNESS
  }

  // The pass's own materials: the packed normal/roughness material and the
  // linear-depth material, once for front faces and once for back faces.
  const PackedMaterial: Material := ShaderMaterial(PackedShader, FrontSide)
  const DepthMaterial: Material := ShaderMaterial(LinearDepthShader, FrontSide)
  const BackfaceDepthMaterial: Material := ShaderMaterial(LinearDepthShader, BackSide)

  /** The size every buffer is created with, before the first `setSize`. */
  const InitialBufferSize: real := 256.0

  /** The `options` object given to the constructor: a key is either present with a value or absent. */
  type Options = map<string, real>

  /** The tunable parameters of the pass. */
  datatype Config = Config(
    intensity: real,
    steps: real,
    binarySearchSteps: real,
    stride: real,
    renderTargetScale: real)

  /** `key in options ? options[key] : fallback`. */
  function OptionOr(options: Options, key: string, fallback: real): real
  {
    if key in options then options[key] else fallback
  }

  /** The constructor's option resolution: each present key wins, each absent one takes its default. */
  function ResolveOptions(options: Options): (c: Config)
    ensures "intensity" in options ==> c.intensity == options["intensity"]
    ensures "intensity" !in options ==> c.intensity == 0.5
    ensures "steps" in options ==> c.steps == options["steps"]
    ensures "steps" !in options ==> c.steps == 10.0
    ensures "binarySearchSteps" in options ==> c.binarySearchSteps == options["binarySearchSteps"]
    ensures "binarySearchSteps" !in options ==> c.binarySearchSteps == 4.0
    ensures "stride" in options ==> c.stride == options["stride"]
    ensures "stride" !in options ==> c.stride == 30.0
    ensures "renderTargetScale" in options ==> c.renderTargetScale == options["renderTargetScale"]
    ensures "renderTargetScale" !in options ==> c.renderTargetScale == 0.5
  {
    Config(
      OptionOr(options, "intensity", 0.5),
      OptionOr(options, "steps", 10.0),
      OptionOr(options, "binarySearchSteps", 4.0),
      OptionOr(options, "stride", 30.0),
      OptionOr(options, "renderTargetScale", 0.5))
  }

  /** `Math.floor` on a number. */
  function Floor(x: real): real
  {
    x.Floor as real
  }

  predicate IsInteger(x: real)
  {
    Floor(x) == x
  }

  /** A compile-time define after one frame's check, and whether that check marked the material for recompilation. */
  datatype DefineSync = DefineSync(stored: Option<real>, changed: bool)

  /**
   * The check the composite path runs on `MAX_STEPS` and
   * `BINARY_SEARCH_ITERATIONS`: when the stored define is not strictly equal
   * to the current parameter, store the parameter's floor and mark the
   * material. A define that is not set yet (`None`) never equals a number.
   */
  function SyncDefine(stored: Option<real>, value: real): (r: DefineSync)
    ensures r.changed <==> stored != Some(value)
    ensures r.changed ==> r.stored == Some(Floor(value))
    ensures !r.changed ==> r.stored == stored
  {
    if stored != Some(value) then DefineSync(Some(Floor(value)), true) else DefineSync(stored, false)
  }

  /** Everything one call of `render` depends on. */
  datatype Frame = Frame(
    display: int,
    final: RenderTarget?,
    source: RenderTarget,
    packed: RenderTarget,
    depth: RenderTarget,
    back: RenderTarget,
    far: real,
    intensity: real,
    stride: real,
    maxSteps: Option<real>,
    binarySearchIterations: Option<real>)

  /** The settings every scene pass runs under: no scene update, no shadows, auto-clear, transparent black. */
  const PassSettings: DrawSettings := DrawSettings(true, false, false, Black, 0.0)

  /** One scene pass: bind `target`, clear it, draw the scene with `material` overriding every surface. */
  function ScenePass(material: Material, target: RenderTarget): seq<Event>
  {
    [Event.Clear(target, Black, 0.0), SceneDraw(Some(material), target, PassSettings)]
  }

  /** One full-screen draw to the frame's output: bind it, clear it, draw the quad. */
  function Display(final: RenderTarget?, image: QuadImage): seq<Event>
  {
    [Event.Clear(final, Black, 0.0), QuadDraw(image, final)]
  }

  /** The uniforms the composite material holds when it is drawn. */
  function CompositeOf(f: Frame): CompositeUniforms
  {
    CompositeUniforms(f.source, f.depth, f.back, f.packed, f.intensity, f.stride, f.maxSteps, f.binarySearchIterations)
  }

  /** The draws from the front-depth pass on: what a frame issues when it is not a packed-buffer view. */
  function DepthStagesLog(f: Frame): seq<Event>
  {
    ScenePass(DepthMaterial, f.depth) +
    if f.display == FRONT_DEPTH then Display(f.final, DepthDisplay(f.depth, f.far))
    else
      ScenePass(BackfaceDepthMaterial, f.back) +
      if f.display == BACK_DEPTH then Display(f.final, DepthDisplay(f.back, f.far))
      else Display(f.final, Composite(CompositeOf(f)))
  }

  /** The draws one call of `render` issues, in order. */
  function FrameLog(f: Frame): seq<Event>
  {
    ScenePass(PackedMaterial, f.packed) +
    if f.display == NORMAL then Display(f.final, PackedDisplay(f.packed, 0.0))
    else if f.display == ROUGHNESS then Display(f.final, PackedDisplay(f.packed, 1.0))
    else DepthStagesLog(f)
  }

  /** The six pieces of renderer and scene state that `render` saves on entry and writes back on exit. */
  datatype SavedState = SavedState(
    clearAlpha: real,
    autoClear: bool,
    overrideMaterial: Option<Material>,
    autoUpdate: bool,
    renderTarget: RenderTarget?,
    shadowMapEnabled: bool)

  function Save(renderer: Renderer, scene: Scene): SavedState
    reads renderer, scene
  {
    SavedState(renderer.clearAlpha, renderer.autoClear, scene.overrideMaterial, scene.autoUpdate,
               renderer.renderTarget, renderer.shadowMapEnabled)
  }

  /**
   * State shared by every pass instance at module level: the colour slot
   * `_prevClearColor` and the uniforms of the two debug display materials.
   */
  class ModuleState {
    var prevClearColor: Color
    var packedDisplayRoughness: real
    var packedDisplayTexture: RenderTarget?
    var depthDisplayTexture: RenderTarget?
    var depthDisplayDivide: real

    constructor (prevClearColor: Color, packedDisplayRoughness: real, depthDisplayDivide: real)
      ensures this.prevClearColor == prevClearColor
      ensures this.packedDisplayRoughness == packedDisplayRoughness && packedDisplayTexture == null
      ensures this.depthDisplayDivide == depthDisplayDivide && depthDisplayTexture == null
    {
      this.prevClearColor := prevClearColor;
      this.packedDisplayRoughness := packedDisplayRoughness;
      packedDisplayTexture := null;
      depthDisplayTexture := null;
      this.depthDisplayDivide := depthDisplayDivide;
    }
  }

  /** The composite `ShaderMaterial`: its uniforms, its two compile-time defines and `needsUpdate`. */
  class CompositeMaterial {
    var sourceBuffer: RenderTarget?
    var depthBuffer: RenderTarget?
    var backfaceDepthBuffer: RenderTarget?
    var packedBuffer: RenderTarget?
    var intensity: real
    var stride: real
    var maxSteps: Option<real>
    var binarySearchIterations: Option<real>
    var needsUpdate: bool

    function Uniforms(): CompositeUniforms
      reads this
    {
      CompositeUniforms(sourceBuffer, depthBuffer, backfaceDepthBuffer, packedBuffer,
                        intensity, stride, maxSteps, binarySearchIterations)
    }

    /** A material built from a shader that declares `declared` as its initial uniforms and defines. */
    constructor (declared: CompositeUniforms)
      ensures Uniforms() == declared && !needsUpdate
    {
      sourceBuffer := declared.sourceBuffer;
      depthBuffer := declared.depthBuffer;
      backfaceDepthBuffer := declared.backfaceDepthBuffer;
      packedBuffer := declared.packedBuffer;
      intensity := declared.intensity;
      stride := declared.stride;
      maxSteps := declared.maxSteps;
      binarySearchIterations := declared.binarySearchIterations;
      needsUpdate := false;
    }
  }

  class SSRRPass {
    var enabled: bool
    var needsSwap: bool
    var renderToScreen: bool

    var intensity: real
    var steps: real
    var binarySearchSteps: real
    var stride: real
    var renderTargetScale: real

    const scene: Scene
    const camera: Camera
    /** `debug.display`. */
    var display: int

    const depthBuffer: RenderTarget
    const backfaceDepthBuffer: RenderTarget
    const packedBuffer: RenderTarget
    const compositeMaterial: CompositeMaterial
    const compositeQuad: FullScreenQuad
    const shared: ModuleState

    /** The three intermediate buffers are distinct objects. */
    ghost predicate Valid()
    {
      depthBuffer != backfaceDepthBuffer && depthBuffer != packedBuffer && backfaceDepthBuffer != packedBuffer
    }

    function Parameters(): Config
      reads this
    {
      Config(intensity, steps, binarySearchSteps, stride, renderTargetScale)
    }

    /** The three intermediate buffers all have size `width` by `height`. */
    ghost predicate BuffersSized(width: real, height: real)
      reads depthBuffer, backfaceDepthBuffer, packedBuffer
    {
      && depthBuffer.width == width && depthBuffer.height == height
      && backfaceDepthBuffer.width == width && backfaceDepthBuffer.height == height
      && packedBuffer.width == width && packedBuffer.height == height
    }

    /**
     * `new SSRRPass(scene, camera, options)`. `shared` is the module-level
     * state; `compositeShader` is what the composite shader declares.
     */
    constructor (scene: Scene, camera: Camera, options: Options, shared: ModuleState,
                 compositeShader: CompositeUniforms)
      ensures Valid()
      ensures enabled && needsSwap && !renderToScreen
      ensures Parameters() == ResolveOptions(options)
      ensures this.scene == scene && this.camera == camera && this.shared == shared
      ensures display == DEFAULT
      ensures fresh(depthBuffer) && fresh(backfaceDepthBuffer) && fresh(packedBuffer)
      ensures fresh(compositeMaterial) && fresh(compositeQuad)
      ensures BuffersSized(InitialBufferSize, InitialBufferSize)
      ensures depthBuffer.name == "SSRRPass.Depth" && backfaceDepthBuffer.name == "SSRRPass.Depth"
      ensures packedBuffer.name == "SSRRPass.Packed"
      ensures !depthBuffer.disposed && !backfaceDepthBuffer.disposed && !packedBuffer.disposed
      ensures compositeMaterial.Uniforms() == compositeShader && !compositeMaterial.needsUpdate
      ensures !compositeQuad.disposed
    {
      enabled := true;
      needsSwap := true;
      renderToScreen := false;
      var c := ResolveOptions(options);
      intensity := c.intensity;
      steps := c.steps;
      binarySearchSteps := c.binarySearchSteps;
      stride := c.stride;
      renderTargetScale := c.renderTargetScale;
      this.scene := scene;
      this.camera := camera;
      display := DEFAULT;
      depthBuffer := new RenderTarget("SSRRPass.Depth", InitialBufferSize, InitialBufferSize);
      backfaceDepthBuffer := new RenderTarget("SSRRPass.Depth", InitialBufferSize, InitialBufferSize);
      packedBuffer := new RenderTarget("SSRRPass.Packed", InitialBufferSize, InitialBufferSize);
      compositeMaterial := new CompositeMaterial(compositeShader);
      compositeQuad := new FullScreenQuad();
      this.shared := shared;
    }

    /** `dispose()`: releases the depth buffer, the packed buffer and the composite quad. */
    method Dispose()
      requires Valid()
      modifies depthBuffer`disposed, packedBuffer`disposed, compositeQuad`disposed
      ensures depthBuffer.disposed && packedBuffer.disposed && compositeQuad.disposed
      ensures backfaceDepthBuffer.disposed == old(backfaceDepthBuffer.disposed)
    {
      depthBuffer.Dispose();
      packedBuffer.Dispose();
      compositeQuad.Dispose();
    }

    /** `setSize(width, height)`: all three buffers take the viewport size scaled by `renderTargetScale`. */
    method SetSize(width: real, height: real)
      modifies depthBuffer`width, depthBuffer`height
      modifies backfaceDepthBuffer`width, backfaceDepthBuffer`height
      modifies packedBuffer`width, packedBuffer`height
      ensures BuffersSized(width * renderTargetScale, height * renderTargetScale)
    {
      var w := width * renderTargetScale;
      var h := height * renderTargetScale;
      depthBuffer.SetSize(w, h);
      backfaceDepthBuffer.SetSize(w, h);
      packedBuffer.SetSize(w, h);
    }

    /** `this.renderToScreen ? null : writeBuffer`. */
    function FinalBuffer(writeBuffer: RenderTarget?): RenderTarget?
      reads this
    {
      if renderToScreen then null else writeBuffer
    }

    /** The frame `render` draws, given the defines the composite path leaves behind. */
    function FrameFor(writeBuffer: RenderTarget?, readBuffer: RenderTarget,
                      maxSteps: Option<real>, binarySearchIterations: Option<real>): Frame
      reads this, camera
    {
      Frame(display, FinalBuffer(writeBuffer), readBuffer, packedBuffer, depthBuffer, backfaceDepthBuffer,
            camera.far, intensity, stride, maxSteps, binarySearchIterations)
    }

    /** The frame a call of `render` draws now: the composite path brings both defines up to date first. */
    function ExpectedFrame(writeBuffer: RenderTarget?, readBuffer: RenderTarget): Frame
      reads this, camera, compositeMaterial
    {
      FrameFor(writeBuffer, readBuffer,
        SyncDefine(compositeMaterial.maxSteps, steps).stored,
        SyncDefine(compositeMaterial.binarySearchIterations, binarySearchSteps).stored)
    }

    /** The closure `replaceOriginalValues`: writes the saved state back. */
    method ReplaceOriginalValues(renderer: Renderer, saved: SavedState)
      modifies renderer`renderTarget, renderer`clearColor, renderer`clearAlpha
      modifies renderer`autoClear, renderer`shadowMapEnabled
      modifies scene`overrideMaterial, scene`autoUpdate
      ensures Save(renderer, scene) == saved
    {
      scene.overrideMaterial := saved.overrideMaterial;
      renderer.SetRenderTarget(saved.renderTarget);
      // The colour handed back is `this._prevClearColor`, a field that is
      // never assigned, so it is `undefined`; only the alpha is restored.
      renderer.SetClearColor(None, saved.clearAlpha);
      renderer.autoClear := saved.autoClear;
      renderer.shadowMapEnabled := saved.shadowMapEnabled;
      scene.autoUpdate := saved.autoUpdate;
    }

    /** The settings forced for the whole frame: no scene update, no shadows, auto-clear, transparent black. */
    method ForcePassSettings(renderer: Renderer)
      modifies scene`autoUpdate, renderer`shadowMapEnabled, renderer`autoClear
      modifies renderer`clearColor, renderer`clearAlpha
      ensures renderer.Settings(scene) == PassSettings
    {
      scene.autoUpdate := false;
      renderer.shadowMapEnabled := false;
      renderer.autoClear := true;
      renderer.SetClearColor(Some(Black), 0.0);
    }

    /** One scene pass: override the scene's material, bind `target`, clear it, draw the scene. */
    method RunScenePass(renderer: Renderer, material: Material, target: RenderTarget)
      requires renderer.Settings(scene) == PassSettings
      modifies renderer`renderTarget, renderer`log, scene`overrideMaterial
      ensures renderer.log == old(renderer.log) + ScenePass(material, target)
      ensures scene.overrideMaterial == Some(material) && renderer.renderTarget == target
    {
      scene.overrideMaterial := Some(material);
      renderer.SetRenderTarget(target);
      renderer.Clear();
      renderer.Render(scene);
    }

    /** The NORMAL and ROUGHNESS views: show a channel of the packed buffer on the final buffer. */
    method ShowPacked(renderer: Renderer, finalBuffer: RenderTarget?, displayRoughness: real)
      requires renderer.clearColor == Black && renderer.clearAlpha == 0.0
      modifies renderer`renderTarget, renderer`log, shared`packedDisplayRoughness, shared`packedDisplayTexture
      ensures renderer.log == old(renderer.log) + Display(finalBuffer, PackedDisplay(packedBuffer, displayRoughness))
      ensures shared.packedDisplayRoughness == displayRoughness && shared.packedDisplayTexture == packedBuffer
    {
      renderer.SetRenderTarget(finalBuffer);
      renderer.Clear();
      shared.packedDisplayRoughness := displayRoughness;
      shared.packedDisplayTexture := packedBuffer;
      renderer.DrawQuad(PackedDisplay(shared.packedDisplayTexture, shared.packedDisplayRoughness));
    }

    /** The FRONT_DEPTH and BACK_DEPTH views: show a depth buffer, scaled by the far plane, on the final buffer. */
    method ShowDepth(renderer: Renderer, finalBuffer: RenderTarget?, texture: RenderTarget)
      requires renderer.clearColor == Black && renderer.clearAlpha == 0.0
      modifies renderer`renderTarget, renderer`log, shared`depthDisplayTexture, shared`depthDisplayDivide
      ensures renderer.log == old(renderer.log) + Display(finalBuffer, DepthDisplay(texture, camera.far))
      ensures shared.depthDisplayTexture == texture && shared.depthDisplayDivide == camera.far
    {
      renderer.SetRenderTarget(finalBuffer);
      renderer.Clear();
      shared.depthDisplayTexture := texture;
      shared.depthDisplayDivide := camera.far;
      renderer.DrawQuad(DepthDisplay(shared.depthDisplayTexture, shared.depthDisplayDivide));
    }

    /**
     * The define check of the composite path: each define that is not
     * strictly equal to its parameter takes the parameter's floor and marks
     * the material for recompilation.
     */
    method UpdateDefines()
      modifies compositeMaterial`maxSteps, compositeMaterial`binarySearchIterations
      modifies compositeMaterial`needsUpdate
      ensures compositeMaterial.maxSteps == SyncDefine(old(compositeMaterial.maxSteps), steps).stored
      ensures compositeMaterial.binarySearchIterations
        == SyncDefine(old(compositeMaterial.binarySearchIterations), binarySearchSteps).stored
      ensures compositeMaterial.needsUpdate == (old(compositeMaterial.needsUpdate)
        || SyncDefine(old(compositeMaterial.maxSteps), steps).changed
        || SyncDefine(old(compositeMaterial.binarySearchIterations), binarySearchSteps).changed)
    {
      if compositeMaterial.maxSteps != Some(steps) {
        compositeMaterial.maxSteps := Some(Floor(steps));
        compositeMaterial.needsUpdate := true;
      }

      if compositeMaterial.binarySearchIterations != Some(binarySearchSteps) {
        compositeMaterial.binarySearchIterations := Some(Floor(binarySearchSteps));
        compositeMaterial.needsUpdate := true;
      }
    }

    /**
     * The composite: hand the buffers and parameters to the composite
     * material, bring its defines up to date, and draw it on the final buffer.
     */
    method DrawComposite(renderer: Renderer, finalBuffer: RenderTarget?, readBuffer: RenderTarget)
      requires renderer.clearColor == Black && renderer.clearAlpha == 0.0
      modifies renderer`renderTarget, renderer`log, compositeMaterial
      ensures compositeMaterial.Uniforms() == CompositeUniforms(readBuffer, depthBuffer, backfaceDepthBuffer,
        packedBuffer, intensity, stride,
        SyncDefine(old(compositeMaterial.maxSteps), steps).stored,
        SyncDefine(old(compositeMaterial.binarySearchIterations), binarySearchSteps).stored)
      ensures compositeMaterial.needsUpdate == (old(compositeMaterial.needsUpdate)
        || SyncDefine(old(compositeMaterial.maxSteps), steps).changed
        || SyncDefine(old(compositeMaterial.binarySearchIterations), binarySearchSteps).changed)
      ensures renderer.log == old(renderer.log) + Display(finalBuffer, Composite(compositeMaterial.Uniforms()))
    {
      compositeMaterial.sourceBuffer := readBuffer;
      compositeMaterial.depthBuffer := depthBuffer;
      compositeMaterial.backfaceDepthBuffer := backfaceDepthBuffer;
      compositeMaterial.packedBuffer := packedBuffer;
      compositeMaterial.intensity := intensity;
      compositeMaterial.stride := stride;

      UpdateDefines();

      renderer.SetRenderTarget(finalBuffer);
      renderer.Clear();
      renderer.DrawQuad(Composite(compositeMaterial.Uniforms()));
    }

    /**
     * `render` from the front-depth pass on: the two depth passes, the
     * FRONT_DEPTH and BACK_DEPTH exits and the composite, each exit writing
     * the saved state back.
     */
    method RenderDepthStages(renderer: Renderer, saved: SavedState, finalBuffer: RenderTarget?,
                             readBuffer: RenderTarget, ghost f: Frame)
      requires f == Frame(display, finalBuffer, readBuffer, packedBuffer, depthBuffer, backfaceDepthBuffer,
        camera.far, intensity, stride,
        SyncDefine(compositeMaterial.maxSteps, steps).stored,
        SyncDefine(compositeMaterial.binarySearchIterations, binarySearchSteps).stored)
      requires renderer.Settings(scene) == PassSettings
      requires display != NORMAL && display != ROUGHNESS
      modifies renderer, scene, compositeMaterial, shared`depthDisplayTexture, shared`depthDisplayDivide
      ensures Save(renderer, scene) == saved
      ensures renderer.log == old(renderer.log) + DepthStagesLog(f)
      ensures IsDebugDisplay(display) ==>
        && compositeMaterial.Uniforms() == old(compositeMaterial.Uniforms())
        && compositeMaterial.needsUpdate == old(compositeMaterial.needsUpdate)
      ensures !IsDebugDisplay(display) ==>
        && compositeMaterial.Uniforms() == CompositeOf(f)
        && compositeMaterial.needsUpdate == (old(compositeMaterial.needsUpdate)
             || SyncDefine(old(compositeMaterial.maxSteps), steps).changed
             || SyncDefine(old(compositeMaterial.binarySearchIterations), binarySearchSteps).changed)
      ensures display == FRONT_DEPTH || display == BACK_DEPTH ==>
        && shared.depthDisplayTexture == (if display == FRONT_DEPTH then depthBuffer else backfaceDepthBuffer)
        && shared.depthDisplayDivide == camera.far
      ensures display != FRONT_DEPTH && display != BACK_DEPTH ==>
        && shared.depthDisplayTexture == old(shared.depthDisplayTexture)
        && shared.depthDisplayDivide == old(shared.depthDisplayDivide)
    {
      RunScenePass(renderer, DepthMaterial, depthBuffer);
      if display == FRONT_DEPTH {
        ShowDepth(renderer, finalBuffer, depthBuffer);
        ReplaceOriginalValues(renderer, saved);
        return;
      }

      RunScenePass(renderer, BackfaceDepthMaterial, backfaceDepthBuffer);
      if display == BACK_DEPTH {
        ShowDepth(renderer, finalBuffer, backfaceDepthBuffer);
        ReplaceOriginalValues(renderer, saved);
        return;
      }

      DrawComposite(renderer, finalBuffer, readBuffer);
      ReplaceOriginalValues(renderer, saved);
    }

    /**
     * `render(renderer, writeBuffer, readBuffer)`. The log grows by exactly
     * the frame's draws, the saved state is back in place whichever exit is
     * taken, and only the composite path touches the composite material.
     */
    method Render(renderer: Renderer, writeBuffer: RenderTarget?, readBuffer: RenderTarget)
      modifies renderer, scene, compositeMaterial, shared
      ensures Save(renderer, scene) == old(Save(renderer, scene))
      ensures renderer.log == old(renderer.log) + FrameLog(old(ExpectedFrame(writeBuffer, readBuffer)))
      ensures shared.prevClearColor == old(renderer.clearColor)
      ensures IsDebugDisplay(display) ==>
        && compositeMaterial.Uniforms() == old(compositeMaterial.Uniforms())
        && compositeMaterial.needsUpdate == old(compositeMaterial.needsUpdate)
      ensures !IsDebugDisplay(display) ==>
        && compositeMaterial.Uniforms() == CompositeOf(old(ExpectedFrame(writeBuffer, readBuffer)))
        && compositeMaterial.needsUpdate == (old(compositeMaterial.needsUpdate)
             || SyncDefine(old(compositeMaterial.maxSteps), steps).changed
             || SyncDefine(old(compositeMaterial.binarySearchIterations), binarySearchSteps).changed)
      ensures display == NORMAL || display == ROUGHNESS ==>
        && shared.packedDisplayTexture == packedBuffer
        && shared.packedDisplayRoughness == (if display == NORMAL then 0.0 else 1.0)
      ensures display == FRONT_DEPTH || display == BACK_DEPTH ==>
        && shared.depthDisplayTexture == (if display == FRONT_DEPTH then depthBuffer else backfaceDepthBuffer)
        && shared.depthDisplayDivide == camera.far
      ensures display != NORMAL && display != ROUGHNESS ==>
        && shared.packedDisplayTexture == old(shared.packedDisplayTexture)
        && shared.packedDisplayRoughness == old(shared.packedDisplayRoughness)
      ensures display != FRONT_DEPTH && display != BACK_DEPTH ==>
        && shared.depthDisplayTexture == old(shared.depthDisplayTexture)
        && shared.depthDisplayDivide == old(shared.depthDisplayDivide)
    {
      ghost var log0 := renderer.log;
      ghost var f := ExpectedFrame(writeBuffer, readBuffer);

      // Save the previous scene state.
      var saved := Save(renderer, scene);
      shared.prevClearColor := renderer.clearColor;

      var finalBuffer := FinalBuffer(writeBuffer);

      ForcePassSettings(renderer);

      RunScenePass(renderer, PackedMaterial, packedBuffer);
      ghost var log1 := renderer.log;
      assert log1 == log0 + ScenePass(PackedMaterial, packedBuffer);
      if display == NORMAL {
        ShowPacked(renderer, finalBuffer, 0.0);
        ReplaceOriginalValues(renderer, saved);
        assert FrameLog(f) == ScenePass(PackedMaterial, packedBuffer) + Display(finalBuffer, PackedDisplay(packedBuffer, 0.0));
        assert renderer.log == log1 + Display(finalBuffer, PackedDisplay(packedBuffer, 0.0));
        return;
      }
      if display == ROUGHNESS {
        ShowPacked(renderer, finalBuffer, 1.0);
        ReplaceOriginalValues(renderer, saved);
        assert FrameLog(f) == ScenePass(PackedMaterial, packedBuffer) + Display(finalBuffer, PackedDisplay(packedBuffer, 1.0));
        assert renderer.log == log1 + Display(finalBuffer, PackedDisplay(packedBuffer, 1.0));
        return;
      }

      RenderDepthStages(renderer, saved, finalBuffer, readBuffer, f);
      assert FrameLog(f) == ScenePass(PackedMaterial, packedBuffer) + DepthStagesLog(f);
      assert renderer.log == log1 + DepthStagesLog(f);
    }
  }
}
