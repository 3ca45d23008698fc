/** `GameRenderer`: the bookkeeping around the GLES rendering callbacks.
    Drawables queue in `newDrawables` until the next frame loads them into
    `drawables`; removals collect in `toRemove` and are swept at the start
    of a frame, before the queue is drained. Shader programs are created once
    per `Shader` and cached. The matrices themselves are computed by
    `android.opengl.Matrix`, which is not part of this model: the renderer
    keeps the parameters it passes (`LookAt`, `Frustum`). */
module Renderer {
  import opened Exceptions
  import opened Gl
  import opened UIRectangles
  import UserInterfaces
  import Vectors

  // ----- the drawable lists -----

  /** `ArrayList.removeAll(gone)`: every occurrence of every element of
      `gone` is dropped, the rest keep their order (`RemoveAllCounts`,
      `RemoveAllDistributes`). */
  function RemoveAll(s: seq<Drawable>, gone: set<Drawable>): (r: seq<Drawable>)
    ensures |r| <= |s|
  {
    if |s| == 0 then []
    else (if s[0] in gone then [] else [s[0]]) + RemoveAll(s[1..], gone)
  }

  /** A removed drawable is gone entirely; any other keeps every occurrence. */
  lemma {:induction false} RemoveAllCounts(s: seq<Drawable>, gone: set<Drawable>, d: Drawable)
    ensures multiset(RemoveAll(s, gone))[d] == if d in gone then 0 else multiset(s)[d]
  {
    if |s| > 0 {
      RemoveAllCounts(s[1..], gone, d);
      assert s == [s[0]] + s[1..];
    }
  }

  /** Removal works element by element, so the kept drawables stay in order. */
  lemma {:induction false} RemoveAllDistributes(a: seq<Drawable>, b: seq<Drawable>, gone: set<Drawable>)
    ensures RemoveAll(a + b, gone) == RemoveAll(a, gone) + RemoveAll(b, gone)
  {
    if |a| == 0 {
      assert a + b == b;
    } else {
      assert (a + b)[0] == a[0];
      assert (a + b)[1..] == a[1..] + b;
      RemoveAllDistributes(a[1..], b, gone);
    }
  }

  /** The active list after a frame's sweep and drain: removals apply to the
      drawables that were already active, then the queue is appended. */
  function SweepThenDrain(drawables: seq<Drawable>, newDrawables: seq<Drawable>, toRemove: set<Drawable>): (r: seq<Drawable>)
    ensures |newDrawables| <= |r| <= |drawables| + |newDrawables|
    ensures r[|r| - |newDrawables|..] == newDrawables
  {
    RemoveAll(drawables, toRemove) + newDrawables
  }

  /** How often a drawable is active after the frame: its old count unless
      removed, plus its count in the queue. So a drawable queued and removed
      in the same window stays active, and one queued twice is active twice. */
  lemma SweepThenDrainCounts(drawables: seq<Drawable>, newDrawables: seq<Drawable>, toRemove: set<Drawable>, d: Drawable)
    ensures multiset(SweepThenDrain(drawables, newDrawables, toRemove))[d]
            == (if d in toRemove then 0 else multiset(drawables)[d]) + multiset(newDrawables)[d]
  {
    RemoveAllCounts(drawables, toRemove, d);
  }

  /** The same drawable added and removed before a frame is drawn by it. */
  lemma AddedAndRemovedStaysActive(drawables: seq<Drawable>, newDrawables: seq<Drawable>, toRemove: set<Drawable>, d: Drawable)
    requires d in newDrawables && d in toRemove
    ensures d in SweepThenDrain(drawables, newDrawables, toRemove)
  {
    SweepThenDrainCounts(drawables, newDrawables, toRemove, d);
  }

  // ----- the effects of a frame -----

  /** `drawable.load()` for each drawable of the queue, in order. */
  function LoadEffects(ds: seq<Drawable>): (r: seq<Effect>)
    ensures |r| == |ds|
  {
    if |ds| == 0 then [] else LoadEffects(ds[..|ds| - 1]) + [LoadDrawable(ds[|ds| - 1])]
  }

  lemma {:induction false} LoadEffectsAt(ds: seq<Drawable>, k: nat)
    requires k < |ds|
    ensures LoadEffects(ds)[k] == LoadDrawable(ds[k])
  {
    if k < |ds| - 1 {
      LoadEffectsAt(ds[..|ds| - 1], k);
    }
  }

  /** `drawable.draw()` for each active drawable, in list order. */
  function DrawEffects(ds: seq<Drawable>): (r: seq<Effect>)
    ensures |r| == |ds|
  {
    if |ds| == 0 then [] else DrawEffects(ds[..|ds| - 1]) + [DrawDrawable(ds[|ds| - 1])]
  }

  lemma {:induction false} DrawEffectsAt(ds: seq<Drawable>, k: nat)
    requires k < |ds|
    ensures DrawEffects(ds)[k] == DrawDrawable(ds[k])
  {
    if k < |ds| - 1 {
      DrawEffectsAt(ds[..|ds| - 1], k);
    }
  }

  /** The camera position `onDrawFrame` passes to the shaders: the first
      three components of `lookFrom + lookAt`, read through `x`, `y` and
      `z`, which throw on shorter vectors. */
  function CameraPosition(lookFrom: seq<real>, lookAt: seq<real>): (r: Result<seq<real>>)
    ensures r.Err? <==> |lookFrom| < 3 || |lookAt| < 3
    ensures r.Err? ==> r.error == IndexOutOfBounds
    ensures r.Ok? ==> |r.value| == 3 && forall i :: 0 <= i < 3 ==> r.value[i] == lookFrom[i] + lookAt[i]
  {
    if |lookFrom| < 3 || |lookAt| < 3 then Err(IndexOutOfBounds)
    else Ok([lookFrom[0] + lookAt[0], lookFrom[1] + lookAt[1], lookFrom[2] + lookAt[2]])
  }

  /** The trace of `userInterface?.draw()` at the given screen size: none
      without a UI. */
  function UIDrawn(ui: UserInterfaces.UserInterface?, screenWidth: int, screenHeight: int): (r: Option<Trace>)
    requires ui != null ==> screenWidth != 0 && screenHeight != 0 && ui.scale != 0.0
    reads ui, if ui != null then ui.buttons else []
    ensures r.None? <==> ui == null
    ensures ui != null ==> r.value.outcome.Fail? ==> r.value.outcome == Fail(IndexOutOfBounds)
  {
    if ui == null then None else Some(ui.DrawnTrace(screenWidth, screenHeight))
  }

  /** The UI pass around the trace `ui` of the UI's own draw: the depth test
      is disabled, the UI is drawn, and the depth test is enabled again only
      if the draw returned normally. Without a UI there is no pass. */
  function UIPass(ui: Option<Trace>): (r: Trace)
    ensures ui.None? ==> r == Trace([], Pass)
    ensures ui.Some? ==> r.outcome == ui.value.outcome
    ensures ui.Some? && ui.value.outcome.Pass? ==> r.effects == [DepthTest(false)] + ui.value.effects + [DepthTest(true)]
    ensures ui.Some? && ui.value.outcome.Fail? ==> r.effects == [DepthTest(false)] + ui.value.effects
  {
    match ui
    case None => Trace([], Pass)
    case Some(t) => Then(Trace([DepthTest(false)], Pass), Then(t, Trace([DepthTest(true)], Pass)))
  }

  /** What a frame issues once the queue is loaded: the clear, the camera
      uniforms for every cached program, a draw per active drawable and the
      UI pass. Reading the camera position can throw, after the clear; the
      UI's draw can throw, and then the depth test stays disabled. */
  function FrameTrace(active: seq<Drawable>, programs: set<int>, lookFrom: seq<real>, lookAt: seq<real>,
                      view: Option<LookAt>, projection: Option<Frustum>, ui: Option<Trace>): (r: Trace)
    ensures r.outcome.Fail? <==> |lookFrom| < 3 || |lookAt| < 3 || (ui.Some? && ui.value.outcome.Fail?)
    ensures |lookFrom| < 3 || |lookAt| < 3 ==> r == Trace([ClearBuffers], Fail(IndexOutOfBounds))
    ensures r.outcome.Fail? && 3 <= |lookFrom| && 3 <= |lookAt| ==> r.outcome == ui.value.outcome
    ensures r.outcome.Pass? ==> |r.effects| == 2 + |active| + (if ui.Some? then |ui.value.effects| + 2 else 0)
  {
    Then(SceneTrace(active, programs, lookFrom, lookAt, view, projection), UIPass(ui))
  }

  /** The part of a frame before the UI pass: the clear, then, unless
      reading the camera position throws, the camera uniforms and a draw
      per active drawable. */
  function SceneTrace(active: seq<Drawable>, programs: set<int>, lookFrom: seq<real>, lookAt: seq<real>,
                      view: Option<LookAt>, projection: Option<Frustum>): (r: Trace)
    ensures r.outcome.Fail? <==> |lookFrom| < 3 || |lookAt| < 3
    ensures r.outcome.Fail? ==> r == Trace([ClearBuffers], Fail(IndexOutOfBounds))
    ensures r.outcome.Pass? ==> |r.effects| == 2 + |active| && r.effects[0] == ClearBuffers
                                && r.effects[2..] == DrawEffects(active)
  {
    match CameraPosition(lookFrom, lookAt)
    case Err(e) => Trace([ClearBuffers], Fail(e))
    case Ok(cam) => Trace([ClearBuffers, CameraUniforms(programs, cam, view, projection)] + DrawEffects(active), Pass)
  }

  /** In a frame that does not throw, the clear and the camera uniforms come
      first, the active drawables are drawn in list order, and the UI is
      drawn last, between the depth test going off and coming back on. */
  lemma FrameOrder(active: seq<Drawable>, programs: set<int>, lookFrom: seq<real>, lookAt: seq<real>,
                   view: Option<LookAt>, projection: Option<Frustum>, ui: Option<Trace>, k: nat)
    requires 3 <= |lookFrom| && 3 <= |lookAt| && k < |active|
    requires ui.Some? ==> ui.value.outcome == Pass
    ensures var t := FrameTrace(active, programs, lookFrom, lookAt, view, projection, ui);
            t.outcome == Pass
            && t.effects[0] == ClearBuffers
            && t.effects[1] == CameraUniforms(programs, CameraPosition(lookFrom, lookAt).value, view, projection)
            && t.effects[2 + k] == DrawDrawable(active[k])
            && (ui.Some? ==> t.effects[2 + |active|..] == [DepthTest(false)] + ui.value.effects + [DepthTest(true)])
  {
    var cam := CameraPosition(lookFrom, lookAt).value;
    var t := FrameTrace(active, programs, lookFrom, lookAt, view, projection, ui);
    var head := [ClearBuffers, CameraUniforms(programs, cam, view, projection)] + DrawEffects(active);
    assert t.effects == head + UIPass(ui).effects;
    DrawEffectsAt(active, k);
    assert head[2 + k] == DrawEffects(active)[k];
    assert t.effects[|head|..] == UIPass(ui).effects;
  }

  /** A UI whose draw throws ends the frame: its exception is the frame's,
      and the log ends with the UI's own calls after the depth test was
      disabled, so the depth test is not enabled again. */
  lemma UIFailureLeavesDepthTestOff(active: seq<Drawable>, programs: set<int>, lookFrom: seq<real>,
                                    lookAt: seq<real>, view: Option<LookAt>, projection: Option<Frustum>, ui: Trace)
    requires 3 <= |lookFrom| && 3 <= |lookAt| && ui.outcome.Fail?
    ensures var t := FrameTrace(active, programs, lookFrom, lookAt, view, projection, Some(ui));
            var n := 2 + |active|;
            t.outcome == ui.outcome && |t.effects| == n + 1 + |ui.effects|
            && t.effects[n] == DepthTest(false) && t.effects[n + 1..] == ui.effects
  {
    var cam := CameraPosition(lookFrom, lookAt).value;
    var t := FrameTrace(active, programs, lookFrom, lookAt, view, projection, Some(ui));
    var head := [ClearBuffers, CameraUniforms(programs, cam, view, projection)] + DrawEffects(active);
    assert t.effects == head + [DepthTest(false)] + ui.effects;
  }

  /** A UI with a rectangle that lacks dimensions or margins throws
      `IndexOutOfBoundsException` out of every frame that reaches it, and
      the frame ends with the depth test disabled. */
  lemma IncompleteUIFailsFrame(active: seq<Drawable>, programs: set<int>, lookFrom: seq<real>, lookAt: seq<real>,
                               view: Option<LookAt>, projection: Option<Frustum>,
                               ui: UserInterfaces.UserInterface, screenWidth: int, screenHeight: int)
    requires screenWidth != 0 && screenHeight != 0 && ui.scale != 0.0
    requires 3 <= |lookFrom| && 3 <= |lookAt|
    requires (exists k :: 0 <= k < |ui.elements| && !Sized(ui.elements[k]))
             || (exists k :: 0 <= k < |ui.buttons| && !Sized(ui.buttons[k].rect))
    ensures var d := ui.DrawnTrace(screenWidth, screenHeight);
            var t := FrameTrace(active, programs, lookFrom, lookAt, view, projection, Some(d));
            t.outcome == Fail(IndexOutOfBounds)
            && t.effects[2 + |active|] == DepthTest(false) && t.effects[3 + |active|..] == d.effects
  {
    var d := ui.DrawnTrace(screenWidth, screenHeight);
    UIFailureLeavesDepthTestOff(active, programs, lookFrom, lookAt, view, projection, d);
  }

  /** The drawables queued for a frame are drawn after every drawable that
      stays active from before, in the order they were queued. */
  lemma QueuedDrawnLast(drawables: seq<Drawable>, newDrawables: seq<Drawable>, toRemove: set<Drawable>, k: nat)
    requires k < |newDrawables|
    ensures var active := SweepThenDrain(drawables, newDrawables, toRemove);
            active[|RemoveAll(drawables, toRemove)| + k] == newDrawables[k]
  {
  }

  /** `onDrawFrame` after the drain: the clear, the camera uniforms, the
      draws and the UI pass, with the UI drawn at the screen size. */
  method RenderFrame(active: seq<Drawable>, programs: set<int>, lookFrom: seq<real>, lookAt: seq<real>,
                     view: Option<LookAt>, projection: Option<Frustum>,
                     ui: UserInterfaces.UserInterface?, screenWidth: int, screenHeight: int, gl: Context) returns (r: Outcome)
    requires ui != null ==> screenWidth != 0 && screenHeight != 0 && ui.scale != 0.0
    modifies gl
    ensures var t := FrameTrace(active, programs, lookFrom, lookAt, view, projection, old(UIDrawn(ui, screenWidth, screenHeight)));
            gl.log == old(gl.log) + t.effects && r == t.outcome
  {
    ghost var drawn := UIDrawn(ui, screenWidth, screenHeight);
    r := DrawScene(active, programs, lookFrom, lookAt, view, projection, gl);
    if r.Fail? {
      return;
    }
    assert UIDrawn(ui, screenWidth, screenHeight) == drawn;
    r := DrawUIPass(ui, screenWidth, screenHeight, gl);
  }

  /** The clear, the camera uniforms and the draws of `onDrawFrame`. */
  method DrawScene(active: seq<Drawable>, programs: set<int>, lookFrom: seq<real>, lookAt: seq<real>,
                   view: Option<LookAt>, projection: Option<Frustum>, gl: Context) returns (r: Outcome)
    modifies gl
    ensures var t := SceneTrace(active, programs, lookFrom, lookAt, view, projection);
            gl.log == old(gl.log) + t.effects && r == t.outcome
  {
    gl.Emit(ClearBuffers);
    var cam := CameraPosition(lookFrom, lookAt);
    if cam.Err? {
      return Fail(cam.error);
    }
    var uniforms := CameraUniforms(programs, cam.value, view, projection);
    gl.Emit(uniforms);
    DrawAll(active, gl);
    AppendAssociates(old(gl.log), [ClearBuffers, uniforms], DrawEffects(active));
    assert SceneTrace(active, programs, lookFrom, lookAt, view, projection).effects
        == [ClearBuffers, uniforms] + DrawEffects(active);
    r := Pass;
  }

  /** `userInterface?.let { .. }`: the depth test off, the UI's draw, and
      the depth test back on unless the draw threw. */
  method DrawUIPass(ui: UserInterfaces.UserInterface?, screenWidth: int, screenHeight: int, gl: Context)
    returns (r: Outcome)
    requires ui != null ==> screenWidth != 0 && screenHeight != 0 && ui.scale != 0.0
    modifies gl
    ensures var pass := old(UIPass(UIDrawn(ui, screenWidth, screenHeight)));
            gl.log == old(gl.log) + pass.effects && r == pass.outcome
  {
    if ui == null {
      return Pass;
    }
    ghost var drawn := ui.DrawnTrace(screenWidth, screenHeight);
    assert UIDrawn(ui, screenWidth, screenHeight) == Some(drawn);
    UIPassOf(drawn);
    r := DrawUI(ui, screenWidth, screenHeight, gl);
  }

  /** The UI pass of a present UI, spelled out. */
  lemma UIPassOf(d: Trace)
    ensures UIPass(Some(d)).outcome == d.outcome
    ensures UIPass(Some(d)).effects == [DepthTest(false)] + d.effects + (if d.outcome.Pass? then [DepthTest(true)] else [])
  {
  }

  /** The body of `userInterface?.let { .. }` for a present UI. */
  method DrawUI(ui: UserInterfaces.UserInterface, screenWidth: int, screenHeight: int, gl: Context)
    returns (r: Outcome)
    requires screenWidth != 0 && screenHeight != 0 && ui.scale != 0.0
    modifies gl
    ensures var d := old(ui.DrawnTrace(screenWidth, screenHeight));
            gl.log == old(gl.log) + [DepthTest(false)] + d.effects + (if d.outcome.Pass? then [DepthTest(true)] else [])
            && r == d.outcome
  {
    gl.Emit(DepthTest(false));
    r := ui.Draw(screenWidth, screenHeight, gl);
    if r.Pass? {
      gl.Emit(DepthTest(true));
    }
  }

  /** `userInterface?.load()`: the UI's rectangles, then its buttons. */
  function UILoadEffects(ui: UserInterfaces.UserInterface?): (r: seq<Effect>)
    reads ui
    ensures ui == null ==> r == []
    ensures ui != null ==> |r| == |ui.elements| + |ui.buttons|
  {
    if ui == null then []
    else UserInterfaces.LoadEffects(ui.elements) + UserInterfaces.LoadEffects(UserInterfaces.ButtonRects(ui.buttons))
  }

  // ----- the shader cache -----

  /** `loadShader(shader)` on the cache `shaders`, where `program` is the id
      `glCreateProgram` would return: the new cache and the id returned. */
  function CacheShader(shaders: map<Shader, int>, shader: Shader, program: int): (r: (map<Shader, int>, int))
    ensures shader in r.0 && r.0[shader] == r.1
    ensures shader in shaders ==> r == (shaders, shaders[shader])
    ensures shader !in shaders ==> r.1 == program && r.0.Keys == shaders.Keys + {shader}
    ensures forall s :: s in shaders ==> s in r.0 && r.0[s] == shaders[s]
  {
    if shader in shaders then (shaders, shaders[shader]) else (shaders[shader := program], program)
  }

  /** Once a shader is cached, loading it again returns the same id and
      leaves the cache as it is, whatever id a new program would get. */
  lemma CacheShaderStable(shaders: map<Shader, int>, shader: Shader, p1: int, p2: int)
    ensures var (cache, id) := CacheShader(shaders, shader, p1);
            CacheShader(cache, shader, p2) == (cache, id)
  {
  }

  /** Loading other shaders in between does not change a cached id. */
  lemma CacheShaderKeeps(shaders: map<Shader, int>, shader: Shader, other: Shader, p1: int, p2: int)
    ensures var (c1, id) := CacheShader(shaders, shader, p1);
            var (c2, _) := CacheShader(c1, other, p2);
            CacheShader(c2, shader, p1).1 == id
  {
  }

  // ----- the camera -----

  /** `updateView()`: the eye is `lookFrom + lookAt` (which throws on a size
      mismatch), and only the `x`, `y`, `z` of the eye, `lookAt` and `upVec`
      are read (which throws on shorter vectors). */
  function ViewFor(lookFrom: seq<real>, lookAt: seq<real>, upVec: seq<real>): (r: Result<LookAt>)
    ensures r.Err? && r.error == IllegalArgument <==> |lookFrom| != |lookAt|
    ensures r.Err? && r.error == IndexOutOfBounds <==> |lookFrom| == |lookAt| && (|lookAt| < 3 || |upVec| < 3)
    ensures r.Ok? ==> r.value.center == lookAt[..3] && r.value.up == upVec[..3]
  {
    var eye :- Vectors.Plus(lookFrom, lookAt);
    if |eye| < 3 || |lookAt| < 3 || |upVec| < 3 then Err(IndexOutOfBounds)
    else Ok(LookAt(eye[..3], lookAt[..3], upVec[..3]))
  }

  /** The eye of the view and the camera position the frame passes to the
      shaders are the same point. */
  lemma EyeIsCameraPosition(lookFrom: seq<real>, lookAt: seq<real>, upVec: seq<real>)
    requires ViewFor(lookFrom, lookAt, upVec).Ok?
    ensures CameraPosition(lookFrom, lookAt) == Ok(ViewFor(lookFrom, lookAt, upVec).value.eye)
  {
    var eye := Vectors.Plus(lookFrom, lookAt).value;
    assert ViewFor(lookFrom, lookAt, upVec).value.eye == eye[..3];
    var cam := CameraPosition(lookFrom, lookAt).value;
    assert cam[0] == eye[..3][0] && cam[1] == eye[..3][1] && cam[2] == eye[..3][2];
    assert cam == eye[..3];
  }

  /** `updateProjectionMatrix(width, height)`: a frustum symmetric about the
      view axis, `zoom * 5` high on each side and as wide as the aspect
      ratio makes it; the clip planes do not depend on the zoom. */
  function ProjectionFor(width: int, height: int, zoom: real): (r: Frustum)
    requires height != 0
    ensures r.left == -r.right && r.bottom == -r.top
    ensures r.top == zoom * 5.0
    ensures r.right * (height as real) == r.top * (width as real)
    ensures r.near == 1.0 && r.far == 500.0
  {
    var ratio := (width as real) / (height as real);
    var clipDistanceFactor := 10.0;
    Frustum(-ratio * zoom * clipDistanceFactor / 2.0, ratio * zoom * clipDistanceFactor / 2.0,
            -1.0 * zoom * clipDistanceFactor / 2.0, 1.0 * zoom * clipDistanceFactor / 2.0,
            0.1 * clipDistanceFactor, 50.0 * clipDistanceFactor)
  }

  /** Zooming scales the frustum's sides and keeps its clip planes. */
  lemma ZoomScalesFrustum(width: int, height: int, zoom: real, k: real)
    requires height != 0
    ensures var a := ProjectionFor(width, height, zoom);
            var b := ProjectionFor(width, height, k * zoom);
            b.top == k * a.top && b.right == k * a.right && b.near == a.near && b.far == a.far
  {
    var ratio := (width as real) / (height as real);
    assert ratio * (k * zoom) * 10.0 / 2.0 == k * (ratio * zoom * 10.0 / 2.0);
  }

  // ----- the renderer -----

  class GameRenderer {
    var upVec: seq<real>
    var userInterface: UserInterfaces.UserInterface?
    var newDrawables: seq<Drawable>
    var drawables: seq<Drawable>
    var toRemove: set<Drawable>
    var shaders: map<Shader, int>
    var lookFrom: seq<real>
    var lookAt: seq<real>
    var zoom: real
    /** The last `setLookAtM` arguments; `None` while the matrix is still zero. */
    var view: Option<LookAt>
    /** The last `frustumM` arguments; `None` while the matrix is still zero. */
    var projection: Option<Frustum>

    constructor ()
      ensures upVec == [0.0, 0.0, 1.0] && userInterface == null
      ensures newDrawables == [] && drawables == [] && toRemove == {} && shaders == map[]
      ensures lookFrom == [0.0, 0.0, 1.0] && lookAt == [0.0, 0.0, 0.0] && zoom == 1.0
      ensures view == None && projection == None
    {
      upVec := [0.0, 0.0, 1.0];
      userInterface := null;
      newDrawables := [];
      drawables := [];
      toRemove := {};
      shaders := map[];
      lookFrom := [0.0, 0.0, 1.0];
      lookAt := [0.0, 0.0, 0.0];
      zoom := 1.0;
      view := None;
      projection := None;
    }

    method SetUpVec(upVec: seq<real>)
      modifies this`upVec
      ensures this.upVec == upVec
    {
      this.upVec := upVec;
    }

    method SetUserInterface(userInterface: UserInterfaces.UserInterface)
      modifies this`userInterface
      ensures this.userInterface == userInterface
    {
      this.userInterface := userInterface;
    }

    /** `add(drawable)`: queued for the next frame. */
    method Add(drawable: Drawable)
      modifies this`newDrawables
      ensures newDrawables == old(newDrawables) + [drawable]
    {
      newDrawables := newDrawables + [drawable];
    }

    /** `addAll(drawables)`: queued in order. */
    method AddAll(ds: seq<Drawable>)
      modifies this`newDrawables
      ensures newDrawables == old(newDrawables) + ds
    {
      newDrawables := newDrawables + ds;
    }

    /** `remove(drawable)`: marked for the next frame's sweep. */
    method Remove(drawable: Drawable)
      modifies this`toRemove
      ensures toRemove == old(toRemove) + {drawable}
    {
      toRemove := toRemove + {drawable};
    }

    /** `loadShader(shader)`: a cached program is returned as is; otherwise
        a program is created (with id `program`), cached and returned. */
    method LoadShader(shader: Shader, program: int, gl: Context) returns (id: int)
      modifies this`shaders, gl
      ensures (shaders, id) == CacheShader(old(shaders), shader, program)
      ensures gl.log == old(gl.log) + (if shader in old(shaders) then [] else [CreateProgram(shader, program)])
    {
      if shader in shaders {
        return shaders[shader];
      }
      id := program;
      gl.Emit(CreateProgram(shader, id));
      shaders := shaders[shader := id];
    }

    /** `loadNewDrawables()`: drains the queue from the front, loading each
        drawable and appending it to the active list. */
    method LoadNewDrawables(gl: Context)
      modifies this`newDrawables, this`drawables, gl
      ensures newDrawables == [] && drawables == old(drawables) + old(newDrawables)
      ensures gl.log == old(gl.log) + LoadEffects(old(newDrawables))
    {
      ghost var queue := newDrawables;
      ghost var i := 0;
      while |newDrawables| > 0
        invariant 0 <= i <= |queue| && newDrawables == queue[i..]
        invariant drawables == old(drawables) + queue[..i]
        invariant gl.log == old(gl.log) + LoadEffects(queue[..i])
        decreases |newDrawables|
      {
        var drawable := newDrawables[0];
        newDrawables := newDrawables[1..];
        gl.Emit(LoadDrawable(drawable));
        drawables := drawables + [drawable];
        assert queue[..i + 1][..i] == queue[..i] && queue[i] == drawable;
        i := i + 1;
      }
      assert queue[..i] == queue;
    }

    /** `updateView()`. */
    method UpdateView() returns (r: Outcome)
      modifies this`view
      ensures match ViewFor(lookFrom, lookAt, upVec)
              case Ok(v) => r == Pass && view == Some(v)
              case Err(e) => r == Fail(e) && view == old(view)
    {
      var eye := Vectors.Plus(lookFrom, lookAt);
      if eye.Err? {
        return Fail(eye.error);
      }
      if |eye.value| < 3 || |lookAt| < 3 || |upVec| < 3 {
        return Fail(IndexOutOfBounds);
      }
      view := Some(LookAt(eye.value[..3], lookAt[..3], upVec[..3]));
      r := Pass;
    }

    /** `onSurfaceChanged(width, height)`: the viewport, then the
        projection for the new size. */
    method OnSurfaceChanged(width: int, height: int, gl: Context)
      requires height != 0
      modifies this`projection, gl
      ensures projection == Some(ProjectionFor(width, height, zoom))
      ensures gl.log == old(gl.log) + [Viewport(width, height)]
    {
      gl.Emit(Viewport(width, height));
      projection := Some(ProjectionFor(width, height, zoom));
    }

    /** `onSurfaceCreated()`: the clear colour and blending, the view, the
        depth test, then the UI's load. An exception from `updateView`
        leaves the rest undone. */
    method OnSurfaceCreated(gl: Context) returns (r: Outcome)
      modifies this`view, gl
      ensures var setup := [ClearColor(1.0, 0.0, 0.0, 1.0), AlphaBlending];
              match ViewFor(lookFrom, lookAt, upVec)
              case Ok(v) =>
                r == Pass && view == Some(v)
                && gl.log == old(gl.log) + setup + [DepthTest(true), DepthLessOrEqual] + UILoadEffects(userInterface)
              case Err(e) => r == Fail(e) && view == old(view) && gl.log == old(gl.log) + setup
    {
      gl.Emit(ClearColor(1.0, 0.0, 0.0, 1.0));
      gl.Emit(AlphaBlending);
      r := UpdateView();
      if r.Fail? {
        return;
      }
      EnableDepthAndLoadUI(gl);
    }

    /** The end of `onSurfaceCreated()`: the depth test on with a
        less-or-equal comparison, then the UI's load. */
    method EnableDepthAndLoadUI(gl: Context)
      modifies gl
      ensures gl.log == old(gl.log) + [DepthTest(true), DepthLessOrEqual] + UILoadEffects(userInterface)
    {
      gl.Emit(DepthTest(true));
      gl.Emit(DepthLessOrEqual);
      AppendAssociates(old(gl.log), [DepthTest(true)], [DepthLessOrEqual]);
      ghost var enabled := gl.log;
      if userInterface != null {
        userInterface.Load(gl);
        AppendAssociates(enabled, UserInterfaces.LoadEffects(userInterface.elements),
                         UserInterfaces.LoadEffects(UserInterfaces.ButtonRects(userInterface.buttons)));
      }
    }

    /** `onDrawFrame()`: sweep the removals, drain the queue, then clear,
        set the camera uniforms of every cached program, draw the active
        drawables in order and draw the UI on top at the game's screen size
        (`screenWidth` by `screenHeight`). */
    method OnDrawFrame(screenWidth: int, screenHeight: int, gl: Context) returns (r: Outcome)
      requires userInterface != null ==> screenWidth != 0 && screenHeight != 0 && userInterface.scale != 0.0
      modifies this`drawables, this`toRemove, this`newDrawables, gl
      ensures drawables == SweepThenDrain(old(drawables), old(newDrawables), old(toRemove))
      ensures newDrawables == [] && toRemove == {}
      ensures view == old(view) && projection == old(projection)
      ensures var t := FrameTrace(drawables, shaders.Values, lookFrom, lookAt, view, projection,
                                  old(UIDrawn(userInterface, screenWidth, screenHeight)));
              gl.log == old(gl.log) + LoadEffects(old(newDrawables)) + t.effects && r == t.outcome
    {
      SweepAndDrain(gl);
      assert UIDrawn(userInterface, screenWidth, screenHeight) == old(UIDrawn(userInterface, screenWidth, screenHeight));
      r := RenderFrame(drawables, shaders.Values, lookFrom, lookAt, view, projection,
                       userInterface, screenWidth, screenHeight, gl);
    }

    /** The start of `onDrawFrame()`: the drawables marked for removal leave
        the active list, then the queue is drained into it. */
    method SweepAndDrain(gl: Context)
      modifies this`drawables, this`toRemove, this`newDrawables, gl
      ensures drawables == SweepThenDrain(old(drawables), old(newDrawables), old(toRemove))
      ensures newDrawables == [] && toRemove == {}
      ensures gl.log == old(gl.log) + LoadEffects(old(newDrawables))
    {
      drawables := RemoveAll(drawables, toRemove);
      toRemove := {};
      LoadNewDrawables(gl);
    }
  }

  /** `drawables.forEach { it.draw() }`. */
  method DrawAll(ds: seq<Drawable>, gl: Context)
    modifies gl
    ensures gl.log == old(gl.log) + DrawEffects(ds)
  {
    var i := 0;
    while i < |ds|
      invariant 0 <= i <= |ds|
      invariant gl.log == old(gl.log) + DrawEffects(ds[..i])
    {
      gl.Emit(DrawDrawable(ds[i]));
      assert ds[..i + 1][..i] == ds[..i];
      i := i + 1;
    }
    assert ds[..i] == ds;
  }
}
