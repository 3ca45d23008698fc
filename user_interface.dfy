/** UserInterface.kt: the screen overlay that loads and draws its
    rectangles and buttons and offers touch events to the buttons; and the
    `UITouchStick` that turns pointer movement into thumbstick and pinch
    callbacks. */
module UserInterfaces {
  import opened Exceptions
  import opened RealMath
  import opened Gl
  import opened MotionEvents
  import opened UIRectangles
  import Vectors

  // ----- loading and drawing -----

  /** Loading each rectangle in turn: one shader load per rectangle. */
  function LoadEffects(rects: seq<Rectangle>): (r: seq<Effect>)
    ensures |r| == |rects|
  {
    if |rects| == 0 then [] else LoadEffects(rects[..|rects| - 1]) + [ShaderLoad(rects[|rects| - 1].shader)]
  }

  /** Loading rectangles issues exactly one shader load per rectangle, in
      list order. */
  lemma {:induction false} LoadEffectsAt(rects: seq<Rectangle>, k: nat)
    requires k < |rects|
    ensures LoadEffects(rects)[k] == ShaderLoad(rects[k].shader)
  {
    if k < |rects| - 1 {
      LoadEffectsAt(rects[..|rects| - 1], k);
      assert rects[..|rects| - 1][k] == rects[k];
    }
  }

  /** The rectangles of the buttons, in order. */
  function ButtonRects(buttons: seq<UIButton>): (r: seq<Rectangle>)
    ensures |r| == |buttons|
    ensures forall k :: 0 <= k < |buttons| ==> r[k] == buttons[k].rect
  {
    if |buttons| == 0 then [] else [buttons[0].rect] + ButtonRects(buttons[1..])
  }

  /** The traces of drawing each rectangle at the same size
      (`ElementTracesAt`). */
  function ElementTraces(rects: seq<Rectangle>, width: real, height: real): (r: seq<Trace>)
    requires width != 0.0 && height != 0.0
    ensures |r| == |rects|
  {
    if |rects| == 0 then [] else [DrawTrace(rects[0], width, height)] + ElementTraces(rects[1..], width, height)
  }

  lemma {:induction false} ElementTracesAt(rects: seq<Rectangle>, width: real, height: real, k: nat)
    requires width != 0.0 && height != 0.0 && k < |rects|
    ensures ElementTraces(rects, width, height)[k] == DrawTrace(rects[k], width, height)
  {
    if k > 0 {
      ElementTracesAt(rects[1..], width, height, k - 1);
    }
  }

  /** Whether each button is pressed, in order. */
  function PressedStates(buttons: seq<UIButton>): (r: seq<bool>)
    reads buttons
    ensures |r| == |buttons|
    ensures forall k :: 0 <= k < |buttons| ==> r[k] == buttons[k].isPressed
  {
    if |buttons| == 0 then [] else [buttons[0].isPressed] + PressedStates(buttons[1..])
  }

  /** The traces of drawing each button, given whether it is pressed, at
      the same size (`ButtonTracesAt`). */
  function ButtonTraces(rects: seq<Rectangle>, pressed: seq<bool>, width: real, height: real): (r: seq<Trace>)
    requires width != 0.0 && height != 0.0 && |rects| == |pressed|
    ensures |r| == |rects|
  {
    if |rects| == 0 then []
    else [ButtonTrace(rects[0], pressed[0], width, height)] + ButtonTraces(rects[1..], pressed[1..], width, height)
  }

  lemma {:induction false} ButtonTracesAt(rects: seq<Rectangle>, pressed: seq<bool>, width: real, height: real, k: nat)
    requires width != 0.0 && height != 0.0 && |rects| == |pressed| && k < |rects|
    ensures ButtonTraces(rects, pressed, width, height)[k] == ButtonTrace(rects[k], pressed[k], width, height)
  {
    if k > 0 {
      ButtonTracesAt(rects[1..], pressed[1..], width, height, k - 1);
    }
  }

  /** Calls that throw `IndexOutOfBoundsException` exactly where `complete`
      is false, made one after another, return normally exactly when all of
      them are complete. */
  lemma {:induction false} ChainOutcome(ts: seq<Trace>, complete: seq<bool>, n: nat)
    requires n <= |complete| == |ts|
    requires forall k :: 0 <= k < |ts| ==> ts[k].outcome == if complete[k] then Pass else Fail(IndexOutOfBounds)
    ensures Chain(ts, n).outcome == Pass <==> forall k :: 0 <= k < n ==> complete[k]
    ensures Chain(ts, n).outcome.Fail? ==> Chain(ts, n).outcome == Fail(IndexOutOfBounds)
  {
    if n > 0 {
      ChainOutcome(ts, complete, n - 1);
    }
  }

  /** Whether each rectangle has both dimensions and margins. */
  function Completeness(rects: seq<Rectangle>): (r: seq<bool>)
    ensures |r| == |rects| && forall k :: 0 <= k < |rects| ==> r[k] == Sized(rects[k])
  {
    if |rects| == 0 then [] else [Sized(rects[0])] + Completeness(rects[1..])
  }

  /** `draw()` returns normally exactly when every rectangle and every
      button's rectangle has both dimensions and margins; otherwise it
      throws `IndexOutOfBoundsException`. */
  lemma DrawOutcome(elements: seq<Rectangle>, rects: seq<Rectangle>, pressed: seq<bool>, width: real, height: real)
    requires width != 0.0 && height != 0.0 && |rects| == |pressed|
    ensures var ets := ElementTraces(elements, width, height);
            var bts := ButtonTraces(rects, pressed, width, height);
            var t := Then(Chain(ets, |ets|), Chain(bts, |bts|));
            (t.outcome == Pass <==> (forall k :: 0 <= k < |elements| ==> Sized(elements[k]))
                                    && forall k :: 0 <= k < |rects| ==> Sized(rects[k]))
            && (t.outcome.Fail? ==> t.outcome == Fail(IndexOutOfBounds))
  {
    var ets := ElementTraces(elements, width, height);
    var bts := ButtonTraces(rects, pressed, width, height);
    forall k | 0 <= k < |ets|
      ensures ets[k].outcome == if Sized(elements[k]) then Pass else Fail(IndexOutOfBounds)
    {
      ElementTracesAt(elements, width, height, k);
    }
    forall k | 0 <= k < |bts|
      ensures bts[k].outcome == if Sized(rects[k]) then Pass else Fail(IndexOutOfBounds)
    {
      ButtonTracesAt(rects, pressed, width, height, k);
    }
    ChainOutcome(ets, Completeness(elements), |ets|);
    ChainOutcome(bts, Completeness(rects), |bts|);
  }

  /** When every rectangle is complete, drawing them issues the draw calls
      of each in list order, five per rectangle. */
  lemma DrawAllSized(rects: seq<Rectangle>, width: real, height: real)
    requires width != 0.0 && height != 0.0
    requires forall k :: 0 <= k < |rects| ==> Sized(rects[k])
    ensures var ts := ElementTraces(rects, width, height);
            Chain(ts, |ts|) == Trace(Concat(ts, |ts|), Pass) && |Concat(ts, |ts|)| == 5 * |rects|
  {
    var ts := ElementTraces(rects, width, height);
    forall k | 0 <= k < |ts|
      ensures ts[k].outcome == Pass && |ts[k].effects| == 5
    {
      ElementTracesAt(rects, width, height, k);
    }
    ChainAllPass(ts, |ts|);
    ConcatLength(ts, |ts|);
  }

  lemma {:induction false} ConcatLength(ts: seq<Trace>, n: nat)
    requires n <= |ts| && forall k :: 0 <= k < |ts| ==> |ts[k].effects| == 5
    ensures |Concat(ts, n)| == 5 * n
  {
    if n > 0 {
      ConcatLength(ts, n - 1);
    }
  }

  /** Rectangles drawn without an exception, then buttons: the log holds
      the effects of both, as running one after the other gives. */
  lemma DrawnInTurn(start: seq<Effect>, first: Trace, second: Trace, log: seq<Effect>)
    requires first.outcome == Pass && log == start + first.effects + second.effects
    ensures log == start + Then(first, second).effects && Then(first, second).outcome == second.outcome
  {
    AppendAssociates(start, first.effects, second.effects);
  }

  // ----- touch dispatch -----

  /** The pointers each button holds. */
  function PointerIds(buttons: seq<UIButton>): (r: seq<set<int>>)
    reads buttons
    ensures |r| == |buttons| && forall k :: 0 <= k < |buttons| ==> r[k] == buttons[k].registeredPointerIds
  {
    if |buttons| == 0 then [] else [buttons[0].registeredPointerIds] + PointerIds(buttons[1..])
  }

  /** What `touch` decides for each button, given the pointers it holds. */
  function ButtonSteps(buttons: seq<UIButton>, event: MotionEvent, screenWidth: int, screenHeight: int,
                       scale: real, sqrt: real -> real): (r: seq<Result<TouchResult>>)
    requires IsSqrt(sqrt)
    reads buttons
    ensures |r| == |buttons|
    ensures forall k :: 0 <= k < |buttons| ==>
              r[k] == TouchStep(buttons[k].rect, buttons[k].collidable, buttons[k].registeredPointerIds,
                                event, screenWidth, screenHeight, scale, sqrt)
  {
    if |buttons| == 0 then []
    else [TouchStep(buttons[0].rect, buttons[0].collidable, buttons[0].registeredPointerIds,
                    event, screenWidth, screenHeight, scale, sqrt)]
         + ButtonSteps(buttons[1..], event, screenWidth, screenHeight, scale, sqrt)
  }

  /** The index, from `i` on, of the first button whose `touch` throws or
      consumes the event; `|steps|` when none does. */
  function Taker(steps: seq<Result<TouchResult>>, i: nat): (r: nat)
    requires i <= |steps|
    ensures i <= r <= |steps|
    ensures forall k :: i <= k < r ==> steps[k].Ok? && !steps[k].value.consumed
    ensures r < |steps| ==> steps[r].Err? || steps[r].value.consumed
    decreases |steps| - i
  {
    if i == |steps| then i
    else if steps[i].Err? || steps[i].value.consumed then i
    else Taker(steps, i + 1)
  }

  /** A button that does not consume an event keeps its pointers and does
      not fire: offering it the event changes nothing. */
  lemma UnconsumedChangesNothing(rect: Rectangle, collidable: Collidable, ids: set<int>, event: MotionEvent,
                                 screenWidth: int, screenHeight: int, scale: real, sqrt: real -> real)
    requires IsSqrt(sqrt)
    requires TouchStep(rect, collidable, ids, event, screenWidth, screenHeight, scale, sqrt).Ok?
    requires !TouchStep(rect, collidable, ids, event, screenWidth, screenHeight, scale, sqrt).value.consumed
    ensures var t := TouchStep(rect, collidable, ids, event, screenWidth, screenHeight, scale, sqrt).value;
            t.ids == ids && !t.fired
  {
    var t := TouchStep(rect, collidable, ids, event, screenWidth, screenHeight, scale, sqrt).value;
    var id := event.pointers[PointerIndex(event)].id;
    assert t.ids == t.ids - {id} == ids - {id} == ids;
  }

  /** A button holding the pointer an event is about always takes it, so no
      button after it is offered that event. */
  lemma HolderTakesEvent(steps: seq<Result<TouchResult>>, k: nat, rect: Rectangle, collidable: Collidable,
                         ids: set<int>, event: MotionEvent, screenWidth: int, screenHeight: int,
                         scale: real, sqrt: real -> real)
    requires IsSqrt(sqrt) && k < |steps|
    requires steps[k] == TouchStep(rect, collidable, ids, event, screenWidth, screenHeight, scale, sqrt)
    requires PointerIndex(event) < |event.pointers| && event.pointers[PointerIndex(event)].id in ids
    ensures Taker(steps, 0) <= k
  {
  }

  /** `elements.forEach { it.draw(width, height) }`. */
  method DrawRectangles(rects: seq<Rectangle>, width: real, height: real, gl: Context) returns (r: Outcome)
    requires width != 0.0 && height != 0.0
    modifies gl
    ensures var ets := ElementTraces(rects, width, height);
            gl.log == old(gl.log) + Chain(ets, |ets|).effects && r == Chain(ets, |ets|).outcome
  {
    ghost var ets := ElementTraces(rects, width, height);
    var i := 0;
    r := Pass;
    assert gl.log == old(gl.log) + Chain(ets, 0).effects;
    while i < |rects|
      invariant 0 <= i <= |rects|
      invariant Chain(ets, i).outcome == Pass
      invariant gl.log == old(gl.log) + Chain(ets, i).effects
    {
      ghost var before := gl.log;
      ElementTracesAt(rects, width, height, i);
      r := rects[i].Draw(width, height, gl);
      ChainExtend(ets, i, old(gl.log), before, gl.log, r);
      if r.Fail? {
        return;
      }
      i := i + 1;
    }
    r := Pass;
  }

  /** `buttons.forEach { it.draw(width, height) }`, on buttons that are
      `pressed` or not. */
  method DrawButtons(buttons: seq<UIButton>, ghost pressed: seq<bool>, width: real, height: real, gl: Context)
    returns (r: Outcome)
    requires width != 0.0 && height != 0.0
    requires |pressed| == |buttons| && forall k :: 0 <= k < |buttons| ==> buttons[k].isPressed == pressed[k]
    modifies gl
    ensures var bts := ButtonTraces(ButtonRects(buttons), pressed, width, height);
            gl.log == old(gl.log) + Chain(bts, |bts|).effects && r == Chain(bts, |bts|).outcome
  {
    ghost var bts := ButtonTraces(ButtonRects(buttons), pressed, width, height);
    var i := 0;
    r := Pass;
    assert gl.log == old(gl.log) + Chain(bts, 0).effects;
    while i < |buttons|
      invariant 0 <= i <= |buttons|
      invariant forall k :: 0 <= k < |buttons| ==> buttons[k].isPressed == pressed[k]
      invariant Chain(bts, i).outcome == Pass
      invariant gl.log == old(gl.log) + Chain(bts, i).effects
    {
      ButtonTracesAt(ButtonRects(buttons), pressed, width, height, i);
      r := DrawButtonAt(buttons[i], bts, i, old(gl.log), width, height, gl);
      if r.Fail? {
        return;
      }
      i := i + 1;
    }
    r := Pass;
  }

  /** One turn of `DrawButtons`: draws button `i` of the series `bts`. */
  method DrawButtonAt(b: UIButton, ghost bts: seq<Trace>, ghost i: nat, ghost start: seq<Effect>,
                      width: real, height: real, gl: Context) returns (r: Outcome)
    requires width != 0.0 && height != 0.0
    requires i < |bts| && bts[i] == ButtonTrace(b.rect, b.isPressed, width, height)
    requires Chain(bts, i).outcome == Pass && gl.log == start + Chain(bts, i).effects
    modifies gl
    ensures r.Pass? ==> Chain(bts, i + 1).outcome == Pass && gl.log == start + Chain(bts, i + 1).effects
    ensures r.Fail? ==> r == Chain(bts, |bts|).outcome && gl.log == start + Chain(bts, |bts|).effects
  {
    ghost var before := gl.log;
    r := b.Draw(width, height, gl);
    ChainExtend(bts, i, start, before, gl.log, r);
  }

  /** `elements.forEach { it.load() }`. */
  method LoadRectangles(rects: seq<Rectangle>, gl: Context)
    modifies gl
    ensures gl.log == old(gl.log) + LoadEffects(rects)
  {
    var i := 0;
    while i < |rects|
      invariant 0 <= i <= |rects|
      invariant gl.log == old(gl.log) + LoadEffects(rects[..i])
    {
      rects[i].Load(gl);
      assert rects[..i + 1][..i] == rects[..i];
      i := i + 1;
    }
    assert rects[..i] == rects;
  }

  /** `buttons.forEach { it.load() }`. */
  method LoadButtons(buttons: seq<UIButton>, gl: Context)
    modifies gl
    ensures gl.log == old(gl.log) + LoadEffects(ButtonRects(buttons))
  {
    ghost var rects := ButtonRects(buttons);
    var i := 0;
    while i < |buttons|
      invariant 0 <= i <= |buttons|
      invariant gl.log == old(gl.log) + LoadEffects(rects[..i])
    {
      buttons[i].Load(gl);
      assert rects[i] == buttons[i].rect && rects[..i + 1][..i] == rects[..i];
      assert LoadEffects(rects[..i + 1]) == LoadEffects(rects[..i]) + [ShaderLoad(rects[i].shader)];
      i := i + 1;
    }
    assert rects[..i] == rects;
  }

  /** `UserInterface`: the rectangles and buttons on screen, the scale the
      game sets, and whether a background touch lambda is set. */
  class UserInterface {
    var elements: seq<Rectangle>
    var buttons: seq<UIButton>
    var scale: real
    var hasBackground: bool

    constructor ()
      ensures elements == [] && buttons == [] && scale == 1.0 && !hasBackground
    {
      elements := [];
      buttons := [];
      scale := 1.0;
      hasBackground := false;
    }

    /** `setOnTouchBackground(lambda)`. */
    method SetOnTouchBackground()
      modifies this
      ensures hasBackground
      ensures elements == old(elements) && buttons == old(buttons) && scale == old(scale)
    {
      hasBackground := true;
    }

    /** `load()`: every rectangle's shader, then every button's. */
    method Load(gl: Context)
      modifies gl
      ensures gl.log == old(gl.log) + LoadEffects(elements) + LoadEffects(ButtonRects(buttons))
    {
      LoadRectangles(elements, gl);
      LoadButtons(buttons, gl);
    }

    /** What `draw()` issues and how it ends: every rectangle, then every
        button, at the screen size divided by the scale, up to the first
        that throws. It throws `IndexOutOfBoundsException` exactly when some
        rectangle lacks dimensions or margins (`DrawOutcome`). */
    function DrawnTrace(screenWidth: int, screenHeight: int): (r: Trace)
      requires screenWidth != 0 && screenHeight != 0 && scale != 0.0
      reads this, buttons
      ensures r.outcome == Pass <==> (forall k :: 0 <= k < |elements| ==> Sized(elements[k]))
                                     && forall k :: 0 <= k < |buttons| ==> Sized(buttons[k].rect)
      ensures r.outcome.Fail? ==> r.outcome == Fail(IndexOutOfBounds)
    {
      var w := screenWidth as real / scale;
      var h := screenHeight as real / scale;
      var rects := ButtonRects(buttons);
      var ets := ElementTraces(elements, w, h);
      var bts := ButtonTraces(rects, PressedStates(buttons), w, h);
      DrawOutcome(elements, rects, PressedStates(buttons), w, h);
      Then(Chain(ets, |ets|), Chain(bts, |bts|))
    }

    /** `draw()`: every rectangle, then every button, at the screen size
        divided by the scale; an exception ends the drawing. */
    method Draw(screenWidth: int, screenHeight: int, gl: Context) returns (r: Outcome)
      requires screenWidth != 0 && screenHeight != 0 && scale != 0.0
      modifies gl
      ensures gl.log == old(gl.log) + old(DrawnTrace(screenWidth, screenHeight)).effects
      ensures r == old(DrawnTrace(screenWidth, screenHeight)).outcome
    {
      var w := screenWidth as real / scale;
      var h := screenHeight as real / scale;
      ghost var ets := ElementTraces(elements, w, h);
      ghost var pressed := PressedStates(buttons);
      ghost var bts := ButtonTraces(ButtonRects(buttons), pressed, w, h);
      r := DrawRectangles(elements, w, h, gl);
      if r.Fail? {
        return;
      }
      ghost var drawn := gl.log;
      r := DrawButtons(buttons, pressed, w, h, gl);
      DrawnInTurn(old(gl.log), Chain(ets, |ets|), Chain(bts, |bts|), gl.log);
    }

    /** `onTouchEvent(event)`: the buttons are offered the event in list
        order; the first that consumes it requests a render and ends the
        dispatch with `true`, and the buttons after it are not offered the
        event. When none consumes it, the background lambda, if any, is
        invoked and the result says whether there was one. An exception
        from a button leaves the dispatch. */
    method OnTouchEvent(event: MotionEvent, screenWidth: int, screenHeight: int, sqrt: real -> real, gl: Context)
      returns (r: Result<bool>)
      requires IsSqrt(sqrt)
      requires forall k :: 0 <= k < |buttons| ==> buttons[k].Valid()
      modifies buttons, gl
      ensures forall k :: 0 <= k < |buttons| ==> buttons[k].Valid()
      ensures var steps := old(ButtonSteps(buttons, event, screenWidth, screenHeight, scale, sqrt));
              var ids := old(PointerIds(buttons));
              var j := Taker(steps, 0);
              if j == |buttons| then
                r == Ok(hasBackground)
                && gl.log == old(gl.log) + (if hasBackground then [BackgroundTouch] else [])
                && forall k :: 0 <= k < |buttons| ==> buttons[k].registeredPointerIds == ids[k]
              else
                match steps[j]
                case Err(e) =>
                  r == Err(e) && gl.log == old(gl.log)
                  && forall k :: 0 <= k < |buttons| ==> buttons[k].registeredPointerIds == ids[k]
                case Ok(t) =>
                  r == Ok(true) && buttons[j].registeredPointerIds == t.ids
                  && gl.log == old(gl.log) + (if t.fired then [ButtonAction(buttons[j].button, event.action)] else []) + [RenderRequest]
                  && forall k :: 0 <= k < |buttons| && buttons[k] != buttons[j] ==>
                       buttons[k].registeredPointerIds == ids[k]
    {
      r := Dispatch(buttons, PointerIds(buttons), ButtonSteps(buttons, event, screenWidth, screenHeight, scale, sqrt),
                    hasBackground, event, screenWidth, screenHeight, scale, sqrt, gl);
    }
  }

  /** The body of `onTouchEvent`: offers the event to each button in turn
      until one throws or consumes it; a consuming button requests a render,
      and when none consumes it the background lambda runs if there is one.
      `ids` are the buttons' registered pointers and `steps` what each
      would do. */
  method Dispatch(buttons: seq<UIButton>, ghost ids: seq<set<int>>, ghost steps: seq<Result<TouchResult>>,
                  hasBackground: bool, event: MotionEvent, screenWidth: int, screenHeight: int, scale: real,
                  sqrt: real -> real, gl: Context)
    returns (r: Result<bool>)
    requires IsSqrt(sqrt) && |ids| == |buttons| && |steps| == |buttons|
    requires forall k :: 0 <= k < |buttons| ==> buttons[k].Valid() && buttons[k].registeredPointerIds == ids[k]
    requires forall k :: 0 <= k < |buttons| ==>
               steps[k] == TouchStep(buttons[k].rect, buttons[k].collidable, ids[k], event, screenWidth, screenHeight, scale, sqrt)
    modifies buttons, gl
    ensures forall k :: 0 <= k < |buttons| ==> buttons[k].Valid()
    ensures var j := Taker(steps, 0);
            if j == |buttons| then
              r == Ok(hasBackground)
              && gl.log == old(gl.log) + (if hasBackground then [BackgroundTouch] else [])
              && forall k :: 0 <= k < |buttons| ==> buttons[k].registeredPointerIds == ids[k]
            else
              match steps[j]
              case Err(e) =>
                r == Err(e) && gl.log == old(gl.log)
                && forall k :: 0 <= k < |buttons| ==> buttons[k].registeredPointerIds == ids[k]
              case Ok(t) =>
                r == Ok(true) && buttons[j].registeredPointerIds == t.ids
                && gl.log == old(gl.log) + (if t.fired then [ButtonAction(buttons[j].button, event.action)] else []) + [RenderRequest]
                && forall k :: 0 <= k < |buttons| && buttons[k] != buttons[j] ==> buttons[k].registeredPointerIds == ids[k]
  {
    var j := 0;
    while j < |buttons|
      invariant 0 <= j <= |buttons|
      invariant forall k :: 0 <= k < |buttons| ==> buttons[k].Valid() && buttons[k].registeredPointerIds == ids[k]
      invariant gl.log == old(gl.log)
      invariant Taker(steps, 0) == Taker(steps, j)
    {
      r := OfferTo(buttons, ids, steps, j, event, screenWidth, screenHeight, scale, sqrt, gl);
      if r != Ok(false) {
        if r.Ok? {
          gl.Emit(RenderRequest);
        }
        return;
      }
      j := j + 1;
    }
    if hasBackground {
      gl.Emit(BackgroundTouch);
    }
    r := Ok(hasBackground);
  }

  /** One iteration of that loop: `buttons[j].touch(...)`, with what it does
      stated by the step it was predicted to take. */
  method OfferTo(buttons: seq<UIButton>, ghost ids: seq<set<int>>, ghost steps: seq<Result<TouchResult>>, j: nat,
                 event: MotionEvent, screenWidth: int, screenHeight: int, scale: real, sqrt: real -> real,
                 gl: Context)
    returns (r: Result<bool>)
    requires IsSqrt(sqrt) && j < |buttons| && |ids| == |buttons| && |steps| == |buttons|
    requires forall k :: 0 <= k < |buttons| ==> buttons[k].Valid() && buttons[k].registeredPointerIds == ids[k]
    requires steps[j] == TouchStep(buttons[j].rect, buttons[j].collidable, ids[j], event, screenWidth, screenHeight, scale, sqrt)
    modifies buttons[j], gl
    ensures forall k :: 0 <= k < |buttons| ==> buttons[k].Valid()
    ensures r == Ok(false) <==> steps[j].Ok? && !steps[j].value.consumed
    ensures r == Ok(false) ==>
              gl.log == old(gl.log) && forall k :: 0 <= k < |buttons| ==> buttons[k].registeredPointerIds == ids[k]
    ensures match steps[j]
            case Err(e) =>
              r == Err(e) && gl.log == old(gl.log)
              && forall k :: 0 <= k < |buttons| ==> buttons[k].registeredPointerIds == ids[k]
            case Ok(t) =>
              r == Ok(t.consumed) && buttons[j].registeredPointerIds == t.ids
              && gl.log == old(gl.log) + (if t.fired then [ButtonAction(buttons[j].button, event.action)] else [])
              && forall k :: 0 <= k < |buttons| && buttons[k] != buttons[j] ==> buttons[k].registeredPointerIds == ids[k]
  {
    var b := buttons[j];
    r := b.Touch(event, screenWidth, screenHeight, scale, sqrt, gl);
    if r == Ok(false) {
      UnconsumedChangesNothing(b.rect, b.collidable, ids[j], event, screenWidth, screenHeight, scale, sqrt);
    }
  }

  // ----- UITouchStick -----

  /** The constructor parameters of a `UITouchStick`. The activation
      functions are pure; `hasPinch` and `hasStick` say whether the pinch and
      stick callbacks are set (the callbacks themselves are recorded as
      effects); `width` and `height` are the game's screen size when the
      stick first reads it. */
  datatype StickConfig = StickConfig(
    radius: real, deadZoneRadius: real, springBack: bool, followOnLimit: bool,
    xFunction: real -> real, yFunction: real -> real, hasPinch: bool, hasStick: bool,
    width: int, height: int)

  /** Kotlin's `min` on two `Int`s. */
  function Min(a: int, b: int): (r: int)
    ensures r <= a && r <= b && (r == a || r == b)
  {
    if a <= b then a else b
  }

  /** Every division `onTouch` and `applyDeadZone` make is by a non-zero
      number (the source would produce an IEEE infinity otherwise). */
  predicate NonZeroDivisors(c: StickConfig)
  {
    c.radius * (Min(c.width, c.height) as real) != 0.0 && c.height != 0 && c.deadZoneRadius != 1.0
  }

  function Abs(x: real): real
  {
    if x < 0.0 then -x else x
  }

  /** The affine part of `applyDeadZone`: it sends `1` to `1`, `-1` to
      `-1` and `deadZoneRadius` (and its negative) to `0` (`RescaledEnds`). */
  function Rescaled(x: real, deadZoneRadius: real): real
    requires deadZoneRadius != 1.0
  {
    if x < 0.0 then x / (1.0 - deadZoneRadius) - (1.0 - 1.0 / (1.0 - deadZoneRadius))
    else x / (1.0 - deadZoneRadius) + (1.0 - 1.0 / (1.0 - deadZoneRadius))
  }

  /** One component through the dead zone. The threshold is the stick's
      `radius`, not `deadZoneRadius`. */
  function DeadZoneComponent(x: real, deadZoneRadius: real, radius: real): real
    requires deadZoneRadius != 1.0
  {
    if Abs(x) <= radius then 0.0 else Rescaled(x, deadZoneRadius)
  }

  /** `applyDeadZone(deadZoneRadius)` on a vector, with the stick's `radius`. */
  function ApplyDeadZone(v: seq<real>, deadZoneRadius: real, radius: real): (r: seq<real>)
    requires deadZoneRadius != 1.0
    ensures |r| == |v|
    ensures deadZoneRadius == 0.0 ==> r == v
    ensures deadZoneRadius != 0.0 ==>
              forall i :: 0 <= i < |v| ==> r[i] == if Abs(v[i]) <= radius then 0.0 else Rescaled(v[i], deadZoneRadius)
  {
    if deadZoneRadius == 0.0 then v
    else seq(|v|, i requires 0 <= i < |v| => DeadZoneComponent(v[i], deadZoneRadius, radius))
  }

  /** The rescaling meets its ends: full deflection stays full and the edge
      of the dead zone maps to zero. */
  lemma RescaledEnds(deadZoneRadius: real)
    requires 0.0 <= deadZoneRadius < 1.0
    ensures Rescaled(1.0, deadZoneRadius) == 1.0 && Rescaled(-1.0, deadZoneRadius) == -1.0
    ensures Rescaled(deadZoneRadius, deadZoneRadius) == 0.0
    ensures 0.0 < deadZoneRadius ==> Rescaled(-deadZoneRadius, deadZoneRadius) == 0.0
  {
    var k := 1.0 / (1.0 - deadZoneRadius);
    assert k * (1.0 - deadZoneRadius) == 1.0;
    assert deadZoneRadius * k == k - 1.0;
  }

  /** When the dead zone lies within the stick's radius, a component in
      `[-1, 1]` comes out in `[-1, 1]` with its sign kept. */
  lemma DeadZoneKeepsSignAndRange(x: real, deadZoneRadius: real, radius: real)
    requires 0.0 <= deadZoneRadius < 1.0 && deadZoneRadius <= radius
    requires -1.0 <= x <= 1.0
    ensures var r := DeadZoneComponent(x, deadZoneRadius, radius);
            -1.0 <= r <= 1.0 && (0.0 <= x ==> 0.0 <= r) && (x <= 0.0 ==> r <= 0.0)
  {
    if Abs(x) > radius {
      var d := 1.0 - deadZoneRadius;
      var k := 1.0 / d;
      assert k * d == 1.0;
      if x < 0.0 {
        // the result is (1 + x) / d - 1, and 0 <= 1 + x <= d
        assert Rescaled(x, deadZoneRadius) == (1.0 + x) * k - 1.0;
        FractionInUnit(1.0 + x, d);
      } else {
        // the result is 1 - (1 - x) / d, and 0 <= 1 - x <= d
        assert Rescaled(x, deadZoneRadius) == 1.0 - (1.0 - x) * k;
        FractionInUnit(1.0 - x, d);
      }
    }
  }

  /** `a / d` lies in `[0, 1]` when `0 <= a <= d`. */
  lemma FractionInUnit(a: real, d: real)
    requires 0.0 <= a <= d && 0.0 < d
    ensures 0.0 <= a * (1.0 / d) <= 1.0
  {
    var k := 1.0 / d;
    assert k * d == 1.0;
    assert 0.0 < k;
    ProductNonNegative(a, k);
    ProductNonNegative(d - a, k);
    assert (d - a) * k == 1.0 - a * k;
  }

  /** With the dead zone wider than the radius the threshold tests, a push
      to the right reads as a push to the left: with radius 0.25 and dead
      zone 0.5, the x component 0.3 becomes -0.4. */
  lemma DeadZoneWiderThanRadiusFlipsSign()
    ensures ApplyDeadZone([0.3, 0.0], 0.5, 0.25) == [-0.4, 0.0]
  {
    var r := ApplyDeadZone([0.3, 0.0], 0.5, 0.25);
    assert r[0] == Rescaled(0.3, 0.5) == -0.4;
  }

  /** The part of the touch stick `onTouch` updates. */
  datatype Stick = Stick(stickPos: seq<real>, previousTouch: seq<real>, previousTouchDistance: real)

  /** Both vectors are 2-dimensional, as the source creates them. */
  predicate Planar(s: Stick)
  {
    |s.stickPos| == 2 && |s.previousTouch| == 2
  }

  /** The distance between the first two pointers when exactly two are
      down; zero otherwise. */
  function PinchDistance(e: MotionEvent, sqrt: real -> real): (r: real)
    requires IsSqrt(sqrt)
    ensures 0.0 <= r
    ensures PointerCount(e) == 2 ==>
              var dx := e.pointers[0].x - e.pointers[1].x;
              var dy := e.pointers[0].y - e.pointers[1].y;
              r * r == dx * dx + dy * dy
    ensures PointerCount(e) != 2 ==> r == 0.0
  {
    if PointerCount(e) == 2 then
      var dx := e.pointers[0].x - e.pointers[1].x;
      var dy := e.pointers[0].y - e.pointers[1].y;
      assert 0.0 <= dx * dx + dy * dy;
      sqrt(dx * dx + dy * dy)
    else 0.0
  }

  /** The stick moved by `(dx, dy)` pixels: each pixel moves it by
      `1 / (radius * min(width, height))`. */
  function Displaced(c: StickConfig, pos: seq<real>, dx: real, dy: real): (r: seq<real>)
    requires NonZeroDivisors(c) && |pos| == 2
    ensures |r| == 2
  {
    var scale := c.radius * (Min(c.width, c.height) as real);
    Vectors.Plus(pos, [dx / scale, dy / scale]).value
  }

  /** `followOnLimit`: a stick longer than 1 is pulled back to length 1. */
  function FollowLimit(v: seq<real>, followOnLimit: bool, sqrt: real -> real): (r: seq<real>)
    requires IsSqrt(sqrt)
    ensures |r| == |v|
  {
    if followOnLimit && Vectors.Length(v, sqrt) > 1.0 then Vectors.Normalize(v, sqrt) else v
  }

  /** The stick after a one-pointer move by `(dx, dy)` pixels. */
  function MovedStick(c: StickConfig, pos: seq<real>, dx: real, dy: real, sqrt: real -> real): (r: seq<real>)
    requires IsSqrt(sqrt) && NonZeroDivisors(c) && |pos| == 2
    ensures |r| == 2
  {
    FollowLimit(Displaced(c, pos, dx, dy), c.followOnLimit, sqrt)
  }

  /** The value reported for a stick at `pos`: its length coerced into
      `[0, 1]`, then the dead zone. */
  function Reported(c: StickConfig, pos: seq<real>, sqrt: real -> real): (r: seq<real>)
    requires IsSqrt(sqrt) && NonZeroDivisors(c) && |pos| == 2
    ensures |r| == 2
  {
    var coerced := Vectors.CoerceLengthWithin(pos, 0.0, 1.0, sqrt).value;
    ApplyDeadZone(coerced, c.deadZoneRadius, c.radius)
  }

  /** `onTouch(event)` on a stick in state `s`: the new state and the
      callbacks it invokes. */
  function StickStep(c: StickConfig, s: Stick, e: MotionEvent, sqrt: real -> real): (r: (Stick, seq<Effect>))
    requires IsSqrt(sqrt) && NonZeroDivisors(c) && Planar(s)
    ensures Planar(r.0) && |r.1| <= 1
    ensures r.0.previousTouch == [e.pointers[0].x, e.pointers[0].y]
    ensures r.0.previousTouchDistance == PinchDistance(e, sqrt)
    ensures e.action != ActionUp && e.action != ActionMove ==> r.0.stickPos == s.stickPos && r.1 == []
  {
    var x := e.pointers[0].x;
    var y := e.pointers[0].y;
    var dist := PinchDistance(e, sqrt);
    if e.action == ActionUp && c.hasStick && c.springBack then
      (Stick([0.0, 0.0], [x, y], dist), [StickMoved(c.xFunction(0.0), c.xFunction(0.0))])
    else if e.action == ActionMove && PointerCount(e) == 1 && c.hasStick then
      var pos := MovedStick(c, s.stickPos, x - s.previousTouch[0], y - s.previousTouch[1], sqrt);
      var out := Reported(c, pos, sqrt);
      (Stick(pos, [x, y], dist), [StickMoved(c.xFunction(out[0]), c.yFunction(out[1]))])
    else if e.action == ActionMove && PointerCount(e) == 2 && c.hasPinch then
      (Stick(s.stickPos, [x, y], dist), [Pinched((dist - s.previousTouchDistance) / (c.height as real))])
    else
      (Stick(s.stickPos, [x, y], dist), [])
  }

  /** Lifting the finger off a spring-back stick recentres it and reports
      the centre; the y component goes through `xFunction` too. */
  lemma SpringBackRecentres(c: StickConfig, s: Stick, e: MotionEvent, sqrt: real -> real)
    requires IsSqrt(sqrt) && NonZeroDivisors(c) && Planar(s)
    requires e.action == ActionUp && c.hasStick && c.springBack
    ensures StickStep(c, s, e, sqrt).0.stickPos == [0.0, 0.0]
    ensures StickStep(c, s, e, sqrt).1 == [StickMoved(c.xFunction(0.0), c.xFunction(0.0))]
  {
  }

  /** A stick that follows the finger never ends a move longer than 1,
      and one that does not is left where the move put it. */
  lemma FollowLimitBounds(v: seq<real>, followOnLimit: bool, sqrt: real -> real)
    requires IsSqrt(sqrt)
    ensures followOnLimit ==> Vectors.Length(FollowLimit(v, followOnLimit, sqrt), sqrt) <= 1.0
    ensures !followOnLimit ==> FollowLimit(v, followOnLimit, sqrt) == v
  {
    if followOnLimit && Vectors.Length(v, sqrt) > 1.0 {
      Vectors.NormalizeUnitLength(v, sqrt);
    }
  }

  /** A stick within the unit circle is reported through the dead zone
      unchanged by the length coercion; when the dead zone lies within the
      radius, each reported component is in `[-1, 1]` with the stick's sign. */
  lemma ReportedInRange(c: StickConfig, pos: seq<real>, sqrt: real -> real)
    requires IsSqrt(sqrt) && NonZeroDivisors(c) && |pos| == 2
    requires Vectors.Length(pos, sqrt) <= 1.0
    requires 0.0 <= c.deadZoneRadius < 1.0 && c.deadZoneRadius <= c.radius
    ensures Reported(c, pos, sqrt) == ApplyDeadZone(pos, c.deadZoneRadius, c.radius)
    ensures forall i :: 0 <= i < 2 ==>
              var r := Reported(c, pos, sqrt)[i];
              -1.0 <= r <= 1.0 && (0.0 <= pos[i] ==> 0.0 <= r) && (pos[i] <= 0.0 ==> r <= 0.0)
  {
    ComponentsInUnit(pos, sqrt);
    DeadZoneKeepsSignAndRange(pos[0], c.deadZoneRadius, c.radius);
    DeadZoneKeepsSignAndRange(pos[1], c.deadZoneRadius, c.radius);
  }

  /** Each component of a planar vector of length at most 1 is in `[-1, 1]`. */
  lemma ComponentsInUnit(pos: seq<real>, sqrt: real -> real)
    requires IsSqrt(sqrt) && |pos| == 2 && Vectors.Length(pos, sqrt) <= 1.0
    ensures -1.0 <= pos[0] <= 1.0 && -1.0 <= pos[1] <= 1.0
  {
    Vectors.LengthSquared(pos, sqrt);
    var len := Vectors.Length(pos, sqrt);
    SquareAtMost(len, len * len, 1.0);
    PlanarSumOfSquares(pos);
    SquareBelowOne(pos[0], pos[1]);
    SquareBelowOne(pos[1], pos[0]);
  }

  lemma PlanarSumOfSquares(pos: seq<real>)
    requires |pos| == 2
    ensures Vectors.SumOfSquares(pos) == pos[0] * pos[0] + pos[1] * pos[1]
  {
    assert pos[1..][0] == pos[1] && |pos[1..][1..]| == 0;
    assert Vectors.SumOfSquares(pos[1..][1..]) == 0.0;
    assert Vectors.SumOfSquares(pos[1..]) == pos[1] * pos[1];
  }

  /** `x` is in `[-1, 1]` when `x*x + y*y` is at most 1. */
  lemma SquareBelowOne(x: real, y: real)
    requires x * x + y * y <= 1.0
    ensures -1.0 <= x <= 1.0
  {
    ProductNonNegative(Abs(y), Abs(y));
    assert Abs(y) * Abs(y) == y * y;
    assert Abs(x) * Abs(x) == x * x;
    SquareAtMost(Abs(x), x * x, 1.0);
  }

  /** A stick that does not follow the finger can be pushed past length 1,
      and the length coercion then reports it longer still: `len*len`. */
  lemma UnfollowedStickOvershoots(c: StickConfig, pos: seq<real>, sqrt: real -> real)
    requires IsSqrt(sqrt) && NonZeroDivisors(c) && |pos| == 2
    requires Vectors.Length(pos, sqrt) > 1.0
    ensures var coerced := Vectors.CoerceLengthWithin(pos, 0.0, 1.0, sqrt).value;
            Vectors.Length(coerced, sqrt) == Vectors.Length(pos, sqrt) * Vectors.Length(pos, sqrt)
            && Vectors.Length(coerced, sqrt) > 1.0
  {
    Vectors.CoerceAboveMaxOvershoots(pos, 0.0, 1.0, sqrt);
  }

  /** A two-pointer move reports the change in the distance between the
      pointers since the last event, over the screen height. */
  lemma PinchReportsChange(c: StickConfig, s: Stick, e: MotionEvent, sqrt: real -> real)
    requires IsSqrt(sqrt) && NonZeroDivisors(c) && Planar(s)
    requires e.action == ActionMove && PointerCount(e) == 2 && c.hasPinch
    ensures var (next, effects) := StickStep(c, s, e, sqrt);
            |effects| == 1 && effects[0].Pinched?
            && effects[0].delta * (c.height as real) == next.previousTouchDistance - s.previousTouchDistance
  {
    var dist := PinchDistance(e, sqrt);
    var h := c.height as real;
    assert ((dist - s.previousTouchDistance) / h) * h == dist - s.previousTouchDistance;
  }

  /** Two pinch moves in a row report changes that add up to the change
      over both. */
  lemma PinchesAccumulate(c: StickConfig, s: Stick, e1: MotionEvent, e2: MotionEvent, sqrt: real -> real)
    requires IsSqrt(sqrt) && NonZeroDivisors(c) && Planar(s)
    requires e1.action == ActionMove && PointerCount(e1) == 2
    requires e2.action == ActionMove && PointerCount(e2) == 2 && c.hasPinch
    ensures var (s1, f1) := StickStep(c, s, e1, sqrt);
            var (s2, f2) := StickStep(c, s1, e2, sqrt);
            c.hasPinch && |f1| == 1 && |f2| == 1 && f1[0].Pinched? && f2[0].Pinched?
            && (f1[0].delta + f2[0].delta) * (c.height as real) == s2.previousTouchDistance - s.previousTouchDistance
  {
    PinchReportsChange(c, s, e1, sqrt);
    var s1 := StickStep(c, s, e1, sqrt).0;
    PinchReportsChange(c, s1, e2, sqrt);
  }

  /** `UITouchStick`. */
  class UITouchStick {
    const config: StickConfig
    var stickPos: seq<real>
    var previousTouch: seq<real>
    var previousTouchDistance: real

    ghost predicate Valid()
      reads this
    {
      NonZeroDivisors(config) && Planar(State())
    }

    function State(): Stick
      reads this
    {
      Stick(stickPos, previousTouch, previousTouchDistance)
    }

    constructor (config: StickConfig)
      requires NonZeroDivisors(config)
      ensures Valid() && this.config == config
      ensures State() == Stick([0.0, 0.0], [0.0, 0.0], 0.0)
    {
      this.config := config;
      stickPos := [0.0, 0.0];
      previousTouch := [0.0, 0.0];
      previousTouchDistance := 0.0;
    }

    /** `onTouch(event)`: reacts to the raw action word. A release recentres
        a spring-back stick; a one-pointer move moves the stick and reports
        it; a two-pointer move reports the pinch. The event's first pointer
        and the pinch distance are always remembered. */
    method OnTouch(event: MotionEvent, sqrt: real -> real, gl: Context)
      requires IsSqrt(sqrt) && Valid()
      modifies this, gl
      ensures Valid()
      ensures State() == StickStep(config, old(State()), event, sqrt).0
      ensures gl.log == old(gl.log) + StickStep(config, old(State()), event, sqrt).1
    {
      ghost var step := StickStep(config, State(), event, sqrt);
      var x := event.pointers[0].x;
      var y := event.pointers[0].y;
      var dist := PinchDistance(event, sqrt);
      if event.action == ActionUp {
        if config.hasStick && config.springBack {
          stickPos := [0.0, 0.0];
          gl.Emit(StickMoved(config.xFunction(stickPos[0]), config.xFunction(stickPos[1])));
          assert step.0.stickPos == stickPos && step.1 == [StickMoved(config.xFunction(0.0), config.xFunction(0.0))];
        }
      } else if event.action == ActionMove {
        var dx := x - previousTouch[0];
        var dy := y - previousTouch[1];
        var dDist := dist - previousTouchDistance;
        if PointerCount(event) == 1 {
          if config.hasStick {
            MoveStick(dx, dy, sqrt, gl);
            assert step.0.stickPos == stickPos;
          }
        } else if PointerCount(event) == 2 {
          if config.hasPinch {
            gl.Emit(Pinched(dDist / (config.height as real)));
            assert step.1 == [Pinched(dDist / (config.height as real))];
          }
        }
      }
      previousTouch := [x, y];
      previousTouchDistance := dist;
    }
  
    /** The one-pointer move: the stick moves by `(dx, dy)` pixels (pulled
        back to length 1 when it follows the finger), and the stick callback
        gets its length-coerced, dead-zoned position through the activation
        functions. */
    method MoveStick(dx: real, dy: real, sqrt: real -> real, gl: Context)
      requires IsSqrt(sqrt) && Valid() && config.hasStick
      modifies this`stickPos, gl
      ensures Valid()
      ensures stickPos == MovedStick(config, old(stickPos), dx, dy, sqrt)
      ensures var out := Reported(config, stickPos, sqrt);
              gl.log == old(gl.log) + [StickMoved(config.xFunction(out[0]), config.yFunction(out[1]))]
    {
      ghost var displaced := Displaced(config, stickPos, dx, dy);
      var scale := config.radius * (Min(config.width, config.height) as real);
      var pos := Vectors.Plus(stickPos, [dx / scale, dy / scale]).value;
      assert pos[0] == displaced[0] && pos[1] == displaced[1];
      if config.followOnLimit && Vectors.Length(pos, sqrt) > 1.0 {
        pos := Vectors.Normalize(pos, sqrt);
      }
      stickPos := pos;
      var coerced := Vectors.CoerceLengthWithin(stickPos, 0.0, 1.0, sqrt).value;
      coerced := ApplyDeadZone(coerced, config.deadZoneRadius, config.radius);
      gl.Emit(StickMoved(config.xFunction(coerced[0]), config.yFunction(coerced[1])));
    }
  }
}
