/**
 * The parts of three.js that the reflection pass talks to, reduced to what the
 * pass observes: the renderer's global settings, the scene's override
 * material and auto-update flag, render targets with a size, and a log of the
 * draws the renderer issues. GPU work itself is not modelled: a clear, a
 * scene draw or a full-screen quad draw appends one event to the log, which
 * records the renderer state that the draw would see.
 */
module Three {
  import opened Wrappers

  /** An RGB colour as three.js's `Color` holds it. */
  datatype Color = Color(r: real, g: real, b: real)

  const Black: Color := Color(0.0, 0.0, 0.0)

  /** Which faces a material renders (`FrontSide` is three.js's default). */
  datatype Side = FrontSide | BackSide

  /**
   * The shader programs a material can be built from. The shader sources are
   * opaque here: only the identity of the program matters.
   */
  datatype Shader = PackedShader | LinearDepthShader | CompositeShader | OtherShader(id: nat)

  /** A material, identified by its shader and the side it renders. */
  datatype Material = ShaderMaterial(shader: Shader, side: Side)

  /** A `WebGLRenderTarget`: a GPU buffer with a size; its texture is identified with it. */
  class RenderTarget {
    const name: string
    var width: real
    var height: real
    var disposed: bool

    constructor (name: string, width: real, height: real)
      ensures this.name == name && this.width == width && this.height == height
      ensures !disposed
    {
      this.name := name;
      this.width := width;
      this.height := height;
      disposed := false;
    }

    /** `WebGLRenderTarget.setSize`: the buffer takes the given size. */
    method SetSize(width: real, height: real)
      modifies this`width, this`height
      ensures this.width == width && this.height == height
    {
      this.width := width;
      this.height := height;
    }

    /** `WebGLRenderTarget.dispose`: the GPU resources are released. */
    method Dispose()
      modifies this`disposed
      ensures disposed
    {
      disposed := true;
    }
  }

  /** A `Pass.FullScreenQuad`; only its disposal is observable here. */
  class FullScreenQuad {
    var disposed: bool

    constructor ()
      ensures !disposed
    {
      disposed := false;
    }

    method Dispose()
      modifies this`disposed
      ensures disposed
    {
      disposed := true;
    }
  }

  /** A `Camera`; the pass reads only its far-plane distance. */
  class Camera {
    var far: real

    constructor (far: real)
      ensures this.far == far
    {
      this.far := far;
    }
  }

  /** A `Scene`: the two fields of it that the pass changes. */
  class Scene {
    var overrideMaterial: Option<Material>
    var autoUpdate: bool

    constructor (overrideMaterial: Option<Material>, autoUpdate: bool)
      ensures this.overrideMaterial == overrideMaterial && this.autoUpdate == autoUpdate
    {
      this.overrideMaterial := overrideMaterial;
      this.autoUpdate := autoUpdate;
    }
  }

  /** The renderer and scene settings in force when a draw is issued. */
  datatype DrawSettings = DrawSettings(
    autoClear: bool,
    shadowMapEnabled: bool,
    sceneAutoUpdate: bool,
    clearColor: Color,
    clearAlpha: real)

  /** The uniforms and defines of the composite material at the time it is drawn. */
  datatype CompositeUniforms = CompositeUniforms(
    sourceBuffer: RenderTarget?,
    depthBuffer: RenderTarget?,
    backfaceDepthBuffer: RenderTarget?,
    packedBuffer: RenderTarget?,
    intensity: real,
    stride: real,
    maxSteps: Option<real>,
    binarySearchIterations: Option<real>)

  /** What a full-screen quad draw shows: one of the two debug displays, or the composite. */
  datatype QuadImage =
    | PackedDisplay(texture: RenderTarget?, displayRoughness: real)
    | DepthDisplay(texture: RenderTarget?, divide: real)
    | Composite(uniforms: CompositeUniforms)

  /** One draw call as the renderer issues it, with the render target it writes to (null is the screen). */
  datatype Event =
    | Clear(target: RenderTarget?, color: Color, alpha: real)
    | SceneDraw(material: Option<Material>, target: RenderTarget?, settings: DrawSettings)
    | QuadDraw(image: QuadImage, target: RenderTarget?)

  /**
   * A `WebGLRenderer`: the global settings the pass saves and restores, and
   * the log of draws issued so far.
   */
  class Renderer {
    var renderTarget: RenderTarget?
    var clearColor: Color
    var clearAlpha: real
    var autoClear: bool
    var shadowMapEnabled: bool
    var log: seq<Event>

    constructor (clearColor: Color, clearAlpha: real, autoClear: bool, shadowMapEnabled: bool)
      ensures renderTarget == null && log == []
      ensures this.clearColor == clearColor && this.clearAlpha == clearAlpha
      ensures this.autoClear == autoClear && this.shadowMapEnabled == shadowMapEnabled
    {
      renderTarget := null;
      this.clearColor := clearColor;
      this.clearAlpha := clearAlpha;
      this.autoClear := autoClear;
      this.shadowMapEnabled := shadowMapEnabled;
      log := [];
    }

    /** The settings a draw issued now would see, with `scene` as the scene drawn. */
    function Settings(scene: Scene): DrawSettings
      reads this, scene
    {
      DrawSettings(autoClear, shadowMapEnabled, scene.autoUpdate, clearColor, clearAlpha)
    }

    method SetRenderTarget(target: RenderTarget?)
      modifies this`renderTarget
      ensures renderTarget == target
    {
      renderTarget := target;
    }

    /**
     * `setClearColor(color, alpha)`. Passing `undefined` for the colour
     * (`None`) leaves the resulting clear colour outside this model: three.js
     * decides what it becomes, and nothing here relies on it.
     */
    method SetClearColor(color: Option<Color>, alpha: real)
      modifies this`clearColor, this`clearAlpha
      ensures clearAlpha == alpha
      ensures color.Some? ==> clearColor == color.value
    {
      if color.Some? {
        clearColor := color.value;
      } else {
        clearColor := *;
      }
      clearAlpha := alpha;
    }

    /** `clear()`: clears the bound target with the current clear colour and alpha. */
    method Clear()
      modifies this`log
      ensures log == old(log) + [Event.Clear(renderTarget, clearColor, clearAlpha)]
    {
      log := log + [Event.Clear(renderTarget, clearColor, clearAlpha)];
    }

    /** `render(scene, camera)`: draws the scene, with its override material, into the bound target. */
    method Render(scene: Scene)
      modifies this`log
      ensures log == old(log) + [SceneDraw(scene.overrideMaterial, renderTarget, Settings(scene))]
    {
      log := log + [SceneDraw(scene.overrideMaterial, renderTarget, Settings(scene))];
    }

    /** `FullScreenQuad.render(renderer)`: draws a quad showing `image` into the bound target. */
    method DrawQuad(image: QuadImage)
      modifies this`log
      ensures log == old(log) + [QuadDraw(image, renderTarget)]
    {
      log := log + [QuadDraw(image, renderTarget)];
    }
  }
}
