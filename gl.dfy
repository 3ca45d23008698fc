/** The OpenGL ES side of the engine as recorded effects. GLES calls, the
    `android.opengl.Matrix` helpers, calls into `Shader` and `Drawable`
    objects whose code is not part of this model, and the lambdas the game
    registers with the UI are not executed: each becomes an `Effect`
    appended to a log, so the model can state in which order the engine
    issues them. */
module Gl {
  import opened Exceptions

  /** A `Shader` object, known only by identity (it is used as a map key). */
  type Shader = nat

  /** A `Drawable` handed to the renderer, known only by identity. */
  type Drawable = nat

  /** The arguments of `Matrix.setLookAtM`. */
  datatype LookAt = LookAt(eye: seq<real>, center: seq<real>, up: seq<real>)

  /** The arguments of `Matrix.frustumM`. */
  datatype Frustum = Frustum(left: real, right: real, bottom: real, top: real, near: real, far: real)

  /** The vertex attributes a mesh binds, by their name in the shader source. */
  datatype Attribute = Position | Normal | TexCoord

  /** The model matrix `Mesh.draw` builds: the identity translated by
      `translation`, then rotated by `angle` degrees about `axis`. */
  datatype ModelTransform = TranslateThenRotate(translation: seq<real>, angle: real, axis: seq<real>)

  datatype Effect =
    | ShaderLoad(shader: Shader)                          // Shader.load()
    | BindTextures(shader: Shader)                        // Shader.bindTextures()
    | ModelUniform(shader: Shader, model: ModelTransform) // the "mModel" uniform
    | EnableAttribute(shader: Shader, attribute: Attribute, components: nat) // enable + pointer
    | DrawElements(count: nat)                            // glDrawElements(GL_TRIANGLES, count, ..)
    | DisableAttribute(shader: Shader, attribute: Attribute)
    | PressedUniform(shader: Shader, pressed: bool)       // glUseProgram + UIButton's "isPressed" uniform
    | RectangleTransform(shader: Shader, translation: seq<real>, scaling: seq<real>) // "mTransform"
    | RenderRequest                                       // AbstractGame.requestRender()
    | LoadDrawable(drawable: Drawable)                    // Drawable.load()
    | DrawDrawable(drawable: Drawable)                    // Drawable.draw()
    | CreateProgram(shader: Shader, program: int)         // create, compile, attach, link
    | ClearBuffers                                        // glClear(color | depth)
    | CameraUniforms(programs: set<int>, cameraPosition: seq<real>, view: Option<LookAt>, projection: Option<Frustum>)
                                                          // vCamPos, mView, mProjection (None: still zero)
    | DepthTest(enabled: bool)                            // glEnable/glDisable(GL_DEPTH_TEST)
    | ClearColor(red: real, green: real, blue: real, alpha: real) // glClearColor
    | AlphaBlending                                       // glEnable(GL_BLEND) + glBlendFunc(SRC_ALPHA, ONE_MINUS_SRC_ALPHA)
    | DepthLessOrEqual                                    // glDepthFunc(GL_LEQUAL) + glDepthMask(true)
    | Viewport(width: int, height: int)                   // glViewport(0, 0, width, height)
    | ButtonAction(button: nat, action: int)              // UIButton `button`'s action lambda
    | BackgroundTouch                                     // the UI's background touch lambda
    | StickMoved(x: real, y: real)                        // a UITouchStick's stick callback
    | Pinched(delta: real)                                // a UITouchStick's pinch callback

  /** The effects of one call together with how the call ended. */
  datatype Trace = Trace(effects: seq<Effect>, outcome: Outcome)

  /** Running `first` and then, unless it threw, `second`. */
  function Then(first: Trace, second: Trace): (r: Trace)
    ensures first.outcome.Fail? ==> r == first
    ensures first.outcome.Pass? ==> r.effects == first.effects + second.effects && r.outcome == second.outcome
  {
    if first.outcome.Fail? then first else Trace(first.effects + second.effects, second.outcome)
  }

  /** The calls with traces `ts[..n]` made one after another, up to the
      first that throws: a Kotlin loop over calls with no `catch`. */
  function Chain(ts: seq<Trace>, n: nat): Trace
    requires n <= |ts|
  {
    if n == 0 then Trace([], Pass) else Then(Chain(ts, n - 1), ts[n - 1])
  }

  /** All the effects of `ts[..n]`, in order. */
  function Concat(ts: seq<Trace>, n: nat): seq<Effect>
    requires n <= |ts|
  {
    if n == 0 then [] else Concat(ts, n - 1) + ts[n - 1].effects
  }

  /** When no call throws, every call runs and the chain returns normally. */
  lemma {:induction false} ChainAllPass(ts: seq<Trace>, n: nat)
    requires n <= |ts| && forall j :: 0 <= j < n ==> ts[j].outcome == Pass
    ensures Chain(ts, n) == Trace(Concat(ts, n), Pass)
  {
    if n > 0 {
      ChainAllPass(ts, n - 1);
    }
  }

  /** The first call that throws ends the chain: its effects are the last
      ones, and its exception is the chain's. */
  lemma {:induction false} ChainFirstFail(ts: seq<Trace>, j: nat, n: nat)
    requires j < n <= |ts| && ts[j].outcome.Fail?
    requires forall k :: 0 <= k < j ==> ts[k].outcome == Pass
    ensures Chain(ts, n) == Trace(Concat(ts, j) + ts[j].effects, ts[j].outcome)
  {
    if n == j + 1 {
      ChainAllPass(ts, j);
    } else {
      ChainFirstFail(ts, j, n - 1);
    }
  }

  /** Once the chain has thrown, later calls change nothing. */
  lemma {:induction false} ChainFailed(ts: seq<Trace>, i: nat, n: nat)
    requires i < n <= |ts| && Chain(ts, i + 1).outcome.Fail?
    ensures Chain(ts, n) == Chain(ts, i + 1)
  {
    if i + 1 < n {
      ChainFailed(ts, i, n - 1);
    }
  }

  /** A log holding the effects of `ts[..i]`, with no exception so far,
      extended by the effects of call `i` holds those of `ts[..i + 1]`; if
      call `i` throws, it holds the whole chain's. */
  lemma ChainExtend(ts: seq<Trace>, i: nat, start: seq<Effect>, log: seq<Effect>, log': seq<Effect>, r: Outcome)
    requires i < |ts| && Chain(ts, i).outcome == Pass && log == start + Chain(ts, i).effects
    requires log' == log + ts[i].effects && r == ts[i].outcome
    ensures r.Pass? ==> Chain(ts, i + 1).outcome == Pass && log' == start + Chain(ts, i + 1).effects
    ensures r.Fail? ==> r == Chain(ts, |ts|).outcome && log' == start + Chain(ts, |ts|).effects
  {
    if r.Fail? {
      ChainFailed(ts, i, |ts|);
    }
  }

  /** Appending effects to a log in two steps or in one gives the same log. */
  lemma AppendAssociates(a: seq<Effect>, b: seq<Effect>, c: seq<Effect>)
    ensures a + b + c == a + (b + c)
  {
  }

  /** The GL context: everything issued so far, in order. */
  class Context {
    var log: seq<Effect>

    constructor ()
      ensures log == []
    {
      log := [];
    }

    method Emit(e: Effect)
      modifies this
      ensures log == old(log) + [e]
    {
      log := log + [e];
    }

    method EmitAll(effects: seq<Effect>)
      modifies this
      ensures log == old(log) + effects
    {
      log := log + effects;
    }
  }
}
