/**
 * What one frame of the reflection pass does, read off the draw log that
 * `SSRRPass.Render` is proved to produce: which scene passes run for each
 * debug display and in what order, the settings they run under, the single
 * full-screen draw that ends every frame, and that a view only ever samples
 * buffers the frame has already drawn. Also the recompilation behaviour of
 * the composite's compile-time defines across frames.
 */
module FrameProperties {
  import opened Wrappers
  import opened Three
  import opened SSRR

  /** The elements of `log` that `pick` selects, in log order. */
  function Select<T>(log: seq<Event>, pick: Event -> Option<T>): seq<T>
  {
    if log == [] then []
    else (if pick(log[0]).Some? then [pick(log[0]).value] else []) + Select(log[1..], pick)
  }

  lemma {:induction false} SelectAppend<T>(a: seq<Event>, b: seq<Event>, pick: Event -> Option<T>)
    ensures Select(a + b, pick) == Select(a, pick) + Select(b, pick)
  {
    if a != [] {
      assert (a + b)[1..] == a[1..] + b;
      SelectAppend(a[1..], b, pick);
    } else {
      assert a + b == b;
    }
  }

  /** A scene draw: the override material in force and the target drawn into. */
  datatype PassRecord = PassRecord(material: Option<Material>, target: RenderTarget?)

  function PassOf(e: Event): Option<PassRecord>
  {
    if e.SceneDraw? then Some(PassRecord(e.material, e.target)) else None
  }

  /** A full-screen draw: what it shows and where. */
  datatype ShownImage = ShownImage(image: QuadImage, target: RenderTarget?)

  function ShownOf(e: Event): Option<ShownImage>
  {
    if e.QuadDraw? then Some(ShownImage(e.image, e.target)) else None
  }

  /** The three scene passes in the order the pipeline runs them. */
  function PassOrder(f: Frame): seq<PassRecord>
  {
    [PassRecord(Some(PackedMaterial), f.packed),
     PassRecord(Some(DepthMaterial), f.depth),
     PassRecord(Some(BackfaceDepthMaterial), f.back)]
  }

  /**
   * The stage at which a frame stops generating buffers: after the packed
   * pass for the normal and roughness views, after the front-depth pass for
   * the front-depth view, after all three otherwise.
   */
  function PassesRun(display: int): nat
  {
    if display == NORMAL || display == ROUGHNESS then 1
    else if display == FRONT_DEPTH then 2
    else 3
  }

  /** The picks of a one-event log. */
  function Picked<T>(e: Event, pick: Event -> Option<T>): seq<T>
  {
    if pick(e).Some? then [pick(e).value] else []
  }

  lemma SelectTwo<T>(x: Event, y: Event, pick: Event -> Option<T>)
    ensures Select([x, y], pick) == Picked(x, pick) + Picked(y, pick)
  {
    assert [x, y][1..] == [y];
    assert [y][1..] == [];
    assert Select([y], pick) == Picked(y, pick) + Select([], pick);
  }

  lemma ScenePassSelect(m: Material, t: RenderTarget)
    ensures Select(ScenePass(m, t), PassOf) == [PassRecord(Some(m), t)]
    ensures Select(ScenePass(m, t), ShownOf) == []
  {
    SelectTwo(Event.Clear(t, Black, 0.0), SceneDraw(Some(m), t, PassSettings), PassOf);
    SelectTwo(Event.Clear(t, Black, 0.0), SceneDraw(Some(m), t, PassSettings), ShownOf);
  }

  lemma DisplaySelect(final: RenderTarget?, image: QuadImage)
    ensures Select(Display(final, image), PassOf) == []
    ensures Select(Display(final, image), ShownOf) == [ShownImage(image, final)]
  {
    SelectTwo(Event.Clear(final, Black, 0.0), QuadDraw(image, final), PassOf);
    SelectTwo(Event.Clear(final, Black, 0.0), QuadDraw(image, final), ShownOf);
  }

  /**
   * A frame runs a prefix of packed, front depth, back-face depth: one pass
   * for NORMAL and ROUGHNESS, two for FRONT_DEPTH, all three for every other
   * display value.
   */
  lemma PassesPerDisplay(f: Frame)
    ensures Select(FrameLog(f), PassOf) == PassOrder(f)[..PassesRun(f.display)]
  {
    ScenePassSelect(PackedMaterial, f.packed);
    ScenePassSelect(DepthMaterial, f.depth);
    ScenePassSelect(BackfaceDepthMaterial, f.back);
    var rest :=
      if f.display == NORMAL then Display(f.final, PackedDisplay(f.packed, 0.0))
      else if f.display == ROUGHNESS then Display(f.final, PackedDisplay(f.packed, 1.0))
      else DepthStagesLog(f);
    SelectAppend(ScenePass(PackedMaterial, f.packed), rest, PassOf);
    if f.display == NORMAL {
      DisplaySelect(f.final, PackedDisplay(f.packed, 0.0));
    } else if f.display == ROUGHNESS {
      DisplaySelect(f.final, PackedDisplay(f.packed, 1.0));
    } else {
      var tail :=
        if f.display == FRONT_DEPTH then Display(f.final, DepthDisplay(f.depth, f.far))
        else
          ScenePass(BackfaceDepthMaterial, f.back) +
          if f.display == BACK_DEPTH then Display(f.final, DepthDisplay(f.back, f.far))
          else Display(f.final, Composite(CompositeOf(f)));
      SelectAppend(ScenePass(DepthMaterial, f.depth), tail, PassOf);
      if f.display == FRONT_DEPTH {
        DisplaySelect(f.final, DepthDisplay(f.depth, f.far));
      } else {
        var image := if f.display == BACK_DEPTH then DepthDisplay(f.back, f.far) else Composite(CompositeOf(f));
        DisplaySelect(f.final, image);
        SelectAppend(ScenePass(BackfaceDepthMaterial, f.back), Display(f.final, image), PassOf);
      }
    }
  }

  /** The one image a frame shows on its final buffer. */
  function ViewOf(f: Frame): QuadImage
  {
    if f.display == NORMAL || f.display == ROUGHNESS then
      PackedDisplay(f.packed, if f.display == ROUGHNESS then 1.0 else 0.0)
    else if f.display == FRONT_DEPTH || f.display == BACK_DEPTH then
      DepthDisplay(if f.display == FRONT_DEPTH then f.depth else f.back, f.far)
    else Composite(CompositeOf(f))
  }

  /**
   * Every frame ends with exactly one full-screen draw, to the final buffer:
   * the composite when `display` is none of the four tested debug views,
   * that view otherwise.
   */
  lemma OneViewPerFrame(f: Frame)
    ensures Select(FrameLog(f), ShownOf) == [ShownImage(ViewOf(f), f.final)]
    ensures FrameLog(f)[|FrameLog(f)| - 1] == QuadDraw(ViewOf(f), f.final)
    ensures ViewOf(f).Composite? <==> !IsDebugDisplay(f.display)
  {
    ScenePassSelect(PackedMaterial, f.packed);
    ScenePassSelect(DepthMaterial, f.depth);
    ScenePassSelect(BackfaceDepthMaterial, f.back);
    DisplaySelect(f.final, ViewOf(f));
    var packedPass := ScenePass(PackedMaterial, f.packed);
    var depthPass := ScenePass(DepthMaterial, f.depth);
    var backPass := ScenePass(BackfaceDepthMaterial, f.back);
    var shown := Display(f.final, ViewOf(f));
    if f.display == NORMAL || f.display == ROUGHNESS {
      assert FrameLog(f) == packedPass + shown;
      SelectAppend(packedPass, shown, ShownOf);
    } else if f.display == FRONT_DEPTH {
      assert FrameLog(f) == packedPass + (depthPass + shown);
      SelectAppend(depthPass, shown, ShownOf);
      SelectAppend(packedPass, depthPass + shown, ShownOf);
    } else {
      assert FrameLog(f) == packedPass + (depthPass + (backPass + shown));
      SelectAppend(backPass, shown, ShownOf);
      SelectAppend(depthPass, backPass + shown, ShownOf);
      SelectAppend(packedPass, depthPass + (backPass + shown), ShownOf);
    }
  }

  /**
   * DEFAULT, INTERSECTION_RESULTS, INTERSECTION_COLORS and every other value
   * that is not one of the four tested views give the same frame: the three
   * scene passes, then the composite on the final buffer.
   */
  lemma CompositePathLog(f: Frame)
    requires !IsDebugDisplay(f.display)
    ensures FrameLog(f) == [
      Event.Clear(f.packed, Black, 0.0), SceneDraw(Some(PackedMaterial), f.packed, PassSettings),
      Event.Clear(f.depth, Black, 0.0), SceneDraw(Some(DepthMaterial), f.depth, PassSettings),
      Event.Clear(f.back, Black, 0.0), SceneDraw(Some(BackfaceDepthMaterial), f.back, PassSettings),
      Event.Clear(f.final, Black, 0.0), QuadDraw(Composite(CompositeUniforms(f.source, f.depth, f.back,
        f.packed, f.intensity, f.stride, f.maxSteps, f.binarySearchIterations)), f.final)]
  {
  }

  /**
   * The pass discipline of a log: every clear is to transparent black, and
   * every scene draw runs with the forced settings right after a clear of
   * its own target.
   */
  ghost predicate PassDiscipline(log: seq<Event>)
  {
    forall i {:trigger log[i]} | 0 <= i < |log| ::
      && (log[i].Clear? ==> log[i].color == Black && log[i].alpha == 0.0)
      && (log[i].SceneDraw? ==>
            && log[i].settings == PassSettings
            && 0 < i && log[i - 1] == Event.Clear(log[i].target, Black, 0.0))
  }

  /** In every frame, each clear is to transparent black and each scene pass clears its own target and then draws with the forced settings. */
  lemma FramePassDiscipline(f: Frame)
    ensures PassDiscipline(FrameLog(f))
  {
  }

  /** The generated buffers a full-screen image samples (the composite's source colour buffer is an input, not generated). */
  function Sampled(image: QuadImage): set<RenderTarget?>
  {
    match image
    case PackedDisplay(texture, _) => {texture}
    case DepthDisplay(texture, _) => {texture}
    case Composite(u) => {u.packedBuffer, u.depthBuffer, u.backfaceDepthBuffer}
  }

  /** Every buffer a full-screen draw samples was drawn into by an earlier scene pass of the same log. */
  ghost predicate SamplesOnlyDrawn(log: seq<Event>)
  {
    forall i, t | 0 <= i < |log| && log[i].QuadDraw? && t in Sampled(log[i].image) ::
      exists j :: 0 <= j < i && log[j].SceneDraw? && log[j].target == t
  }

  /**
   * A frame only ever shows buffers it has already generated: each debug view
   * and the composite read buffers whose scene pass ran earlier in the frame.
   */
  lemma FrameSamplesOnlyDrawn(f: Frame)
    ensures SamplesOnlyDrawn(FrameLog(f))
  {
    var log := FrameLog(f);
    var packedPass := ScenePass(PackedMaterial, f.packed);
    var depthPass := ScenePass(DepthMaterial, f.depth);
    var backPass := ScenePass(BackfaceDepthMaterial, f.back);
    var shown := Display(f.final, ViewOf(f));
    if f.display == NORMAL || f.display == ROUGHNESS {
      assert log == packedPass + shown;
    } else if f.display == FRONT_DEPTH {
      assert log == packedPass + depthPass + shown;
    } else {
      assert log == packedPass + depthPass + backPass + shown;
    }
    forall i, t | 0 <= i < |log| && log[i].QuadDraw? && t in Sampled(log[i].image)
      ensures exists j :: 0 <= j < i && log[j].SceneDraw? && log[j].target == t
    {
      assert i == |log| - 1;
      assert log[i].image == ViewOf(f);
      if t == f.packed {
        assert log[1].SceneDraw? && log[1].target == t;
      } else if t == f.depth {
        assert log[3].SceneDraw? && log[3].target == t;
      } else {
        assert log[5].SceneDraw? && log[5].target == t;
      }
    }
  }

  /** A define holds an integer, or is not set. */
  predicate IntegerDefine(d: Option<real>)
  {
    d.Some? ==> IsInteger(d.value)
  }

  /**
   * Across two frames with the same parameter value, the second frame marks
   * the composite material for recompilation exactly when the value is not
   * an integer (the stored define is its floor, which never equals it). The
   * define stays an integer throughout.
   */
  lemma RecompilesEveryFrameIffFractional(stored: Option<real>, value: real)
    requires IntegerDefine(stored)
    ensures IntegerDefine(SyncDefine(stored, value).stored)
    ensures SyncDefine(SyncDefine(stored, value).stored, value).changed <==> !IsInteger(value)
  {
  }
}
