/** UIRectangle.kt: a rectangle anchored to a corner, an edge or the centre
    of the screen, drawn as a scaled quad; and the UIButton that tracks the
    pointers pressing it and fires its action when it goes from released to
    pressed and back. */
module UIRectangles {
  import opened Exceptions
  import opened RealMath
  import opened Gl
  import opened MotionEvents
  import Vectors

  /** `UIAnchor`: where the rectangle is fixed on the screen. */
  datatype Anchor =
    | TopLeft | TopRight | BottomLeft | BottomRight
    | TopMiddle | LeftMiddle | RightMiddle | BottomMiddle
    | Center

  /** A `UIRectangle`: its x/y dimensions and margins in inches (Vectors,
      so reading `.x`/`.y` of a shorter one throws), its anchor and shader. */
  datatype Rectangle = Rectangle(dimensions: seq<real>, margins: seq<real>, anchor: Anchor, shader: Shader) {

    /** `load()`: loads the shader. */
    method Load(gl: Context)
      modifies gl
      ensures gl.log == old(gl.log) + [ShaderLoad(shader)]
    {
      gl.Emit(ShaderLoad(shader));
    }

    /** `draw(width, height)`. */
    method Draw(width: real, height: real, gl: Context) returns (r: Outcome)
      requires width != 0.0 && height != 0.0
      modifies gl
      ensures gl.log == old(gl.log) + DrawTrace(this, width, height).effects
      ensures r == DrawTrace(this, width, height).outcome
    {
      var t := DrawTrace(this, width, height);
      gl.EmitAll(t.effects);
      r := t.outcome;
    }
  }

  /** Both vectors have the x and y components the rectangle reads. */
  predicate Sized(rect: Rectangle)
  {
    2 <= |rect.dimensions| && 2 <= |rect.margins|
  }

  /** The quad every rectangle draws: four corners from -1 to 1, three
      coordinates each, as two triangles. */
  const QuadCoords: seq<real> := [-1.0, -1.0, 0.0, 1.0, -1.0, 0.0, 1.0, 1.0, 0.0, -1.0, 1.0, 0.0]
  const QuadOrder: seq<int> := [0, 1, 2, 0, 2, 3]

  /** The `init` checks on the quad always pass. */
  lemma QuadInWholeVertices()
    ensures |QuadCoords| % 3 == 0 && |QuadOrder| % 3 == 0 && |QuadOrder| == 6
  {
  }

  /** `getOrigin(screenWidth, screenHeight, scale)`: the centre of the
      rectangle in screen pixels, y growing upwards. Both offsets are read
      before the anchor is looked at, so short vectors throw for every
      anchor; `CENTER` is a `TODO()`. */
  function GetOrigin(rect: Rectangle, screenWidth: int, screenHeight: int, scale: real): (r: Result<seq<real>>)
    ensures r.Err? <==> !Sized(rect) || rect.anchor == Center
    ensures r.Err? ==> r.error == (if Sized(rect) then NotImplemented else IndexOutOfBounds)
    ensures r.Ok? ==> |r.value| == 2
  {
    if |rect.margins| < 2 || |rect.dimensions| < 2 then Err(IndexOutOfBounds)
    else
      var xOffset := (rect.margins[0] + rect.dimensions[0] / 2.0) * scale;
      var yOffset := (rect.margins[1] + rect.dimensions[1] / 2.0) * scale;
      var w := screenWidth as real;
      var h := screenHeight as real;
      match rect.anchor
      case TopLeft => Ok([xOffset, h - yOffset])
      case TopRight => Ok([w - xOffset, h - yOffset])
      case BottomLeft => Ok([xOffset, yOffset])
      case BottomRight => Ok([w - xOffset, yOffset])
      case TopMiddle => Ok([w / 2.0 + rect.margins[0] * scale, h - yOffset])
      case BottomMiddle => Ok([w / 2.0 + rect.margins[0] * scale, yOffset])
      case LeftMiddle => Ok([xOffset, h / 2.0 + rect.margins[1] * scale])
      case RightMiddle => Ok([w - xOffset, h / 2.0 + rect.margins[1] * scale])
      case Center => Err(NotImplemented)
  }

  /** The anchor on the other side of the screen, left and right swapped. */
  function MirrorX(a: Anchor): Anchor
  {
    match a
    case TopLeft => TopRight
    case TopRight => TopLeft
    case BottomLeft => BottomRight
    case BottomRight => BottomLeft
    case LeftMiddle => RightMiddle
    case RightMiddle => LeftMiddle
    case _ => a
  }

  /** The anchor on the other side of the screen, top and bottom swapped. */
  function MirrorY(a: Anchor): Anchor
  {
    match a
    case TopLeft => BottomLeft
    case BottomLeft => TopLeft
    case TopRight => BottomRight
    case BottomRight => TopRight
    case TopMiddle => BottomMiddle
    case BottomMiddle => TopMiddle
    case _ => a
  }

  /** Swapping a left anchor for the right one reflects the origin about
      the vertical centre line of the screen and keeps its height. */
  lemma OriginMirrorsLeftRight(rect: Rectangle, screenWidth: int, screenHeight: int, scale: real)
    requires Sized(rect) && rect.anchor in {TopLeft, TopRight, BottomLeft, BottomRight, LeftMiddle, RightMiddle}
    ensures GetOrigin(rect, screenWidth, screenHeight, scale).Ok?
    ensures GetOrigin(rect.(anchor := MirrorX(rect.anchor)), screenWidth, screenHeight, scale).Ok?
    ensures var o := GetOrigin(rect, screenWidth, screenHeight, scale).value;
            var m := GetOrigin(rect.(anchor := MirrorX(rect.anchor)), screenWidth, screenHeight, scale).value;
            o[0] + m[0] == screenWidth as real && o[1] == m[1]
  {
  }

  /** Swapping a top anchor for the bottom one reflects the origin about
      the horizontal centre line of the screen and keeps its x. */
  lemma OriginMirrorsTopBottom(rect: Rectangle, screenWidth: int, screenHeight: int, scale: real)
    requires Sized(rect) && rect.anchor in {TopLeft, TopRight, BottomLeft, BottomRight, TopMiddle, BottomMiddle}
    ensures GetOrigin(rect, screenWidth, screenHeight, scale).Ok?
    ensures GetOrigin(rect.(anchor := MirrorY(rect.anchor)), screenWidth, screenHeight, scale).Ok?
    ensures var o := GetOrigin(rect, screenWidth, screenHeight, scale).value;
            var m := GetOrigin(rect.(anchor := MirrorY(rect.anchor)), screenWidth, screenHeight, scale).value;
            o[0] == m[0] && o[1] + m[1] == screenHeight as real
  {
  }

  /** A rectangle centred on a screen axis sits half the screen plus its
      margin along that axis, whatever its dimension there. */
  lemma MiddleAnchorIgnoresDimension(rect: Rectangle, other: seq<real>, screenWidth: int, screenHeight: int, scale: real)
    requires Sized(rect) && |other| >= 2
    requires rect.anchor in {TopMiddle, BottomMiddle, LeftMiddle, RightMiddle}
    requires rect.anchor in {TopMiddle, BottomMiddle} ==> other[1] == rect.dimensions[1]
    requires rect.anchor in {LeftMiddle, RightMiddle} ==> other[0] == rect.dimensions[0]
    ensures GetOrigin(rect, screenWidth, screenHeight, scale)
            == GetOrigin(rect.(dimensions := other), screenWidth, screenHeight, scale)
  {
    var o := GetOrigin(rect, screenWidth, screenHeight, scale).value;
    var m := GetOrigin(rect.(dimensions := other), screenWidth, screenHeight, scale).value;
    assert o[0] == m[0] && o[1] == m[1];
  }

  /** The translation and scale of the `mTransform` matrix `draw` builds, in
      GL coordinates (-1 to 1): margins count twice and dimensions once
      relative to the width and height given. `CENTER` has no case in the
      `when`, so the quad stays centred. */
  function Placement(rect: Rectangle, width: real, height: real): (r: Result<(seq<real>, seq<real>)>)
    requires width != 0.0 && height != 0.0
    ensures r.Err? <==> !Sized(rect)
    ensures r.Err? ==> r.error == IndexOutOfBounds
    ensures r.Ok? ==> |r.value.0| == 2 && |r.value.1| == 2
    ensures r.Ok? && rect.anchor == Center ==> r.value.0 == [0.0, 0.0]
  {
    if |rect.margins| < 2 || |rect.dimensions| < 2 then Err(IndexOutOfBounds)
    else
      var xMargin := rect.margins[0] * 2.0 / width;
      var yMargin := rect.margins[1] * 2.0 / height;
      var xRadius := rect.dimensions[0] / width;
      var yRadius := rect.dimensions[1] / height;
      var translation :=
        match rect.anchor
        case TopLeft => [-1.0 + xRadius + xMargin, 1.0 - yRadius - yMargin]
        case TopRight => [1.0 - xRadius - xMargin, 1.0 - yRadius - yMargin]
        case BottomLeft => [-1.0 + xRadius + xMargin, -1.0 + yRadius + yMargin]
        case BottomRight => [1.0 - xRadius - xMargin, -1.0 + yRadius + yMargin]
        case BottomMiddle => [xMargin, -1.0 + yRadius + yMargin]
        case TopMiddle => [xMargin, 1.0 - yRadius - yMargin]
        case LeftMiddle => [-1.0 + xRadius + xMargin, yMargin]
        case RightMiddle => [1.0 - xRadius - xMargin, yMargin]
        case Center => [0.0, 0.0];
      Ok((translation, [xRadius, yRadius]))
  }

  /** `UIRectangle.draw(width, height)`: binds textures, enables the
      position array, uploads the transform, draws the six indices and
      disables the array. Short vectors throw while the transform is
      built, leaving the array enabled. */
  function DrawTrace(rect: Rectangle, width: real, height: real): (r: Trace)
    requires width != 0.0 && height != 0.0
    ensures r.outcome.Fail? <==> !Sized(rect)
    ensures r.outcome.Fail? ==> r.outcome.error == IndexOutOfBounds
    ensures |r.effects| >= 2 && r.effects[..2] == [BindTextures(rect.shader), EnableAttribute(rect.shader, Position, 3)]
    ensures r.outcome.Pass? ==> |r.effects| == 5 && r.effects[3] == DrawElements(6)
                                && r.effects[4] == DisableAttribute(rect.shader, Position)
  {
    var s := rect.shader;
    var enable := [BindTextures(s), EnableAttribute(s, Position, 3)];
    match Placement(rect, width, height)
    case Err(e) => Trace(enable, Fail(e))
    case Ok(p) =>
      Trace(enable + [RectangleTransform(s, p.0, p.1), DrawElements(|QuadOrder|), DisableAttribute(s, Position)], Pass)
  }

  /** Where along an axis a rectangle is fixed. */
  datatype Side = Low | High | Middle

  /** The side of the screen an anchor fixes along x, and along y (y grows upwards). */
  function XSide(a: Anchor): Side
  {
    if a in {TopLeft, BottomLeft, LeftMiddle} then Low
    else if a in {TopRight, BottomRight, RightMiddle} then High
    else Middle
  }

  function YSide(a: Anchor): Side
  {
    if a in {BottomLeft, BottomRight, BottomMiddle} then Low
    else if a in {TopLeft, TopRight, TopMiddle} then High
    else Middle
  }

  /** The origin's coordinate along an axis `w` pixels long, as `getOrigin`
      computes it for each side. */
  function PixelAt(side: Side, margin: real, dimension: real, w: real, scale: real): real
  {
    var offset := (margin + dimension / 2.0) * scale;
    match side
    case Low => offset
    case High => w - offset
    case Middle => w / 2.0 + margin * scale
  }

  /** The translation along an axis, as `draw` computes it for each side
      with `length` the width or height it is given. */
  function GlAt(side: Side, margin: real, dimension: real, length: real): real
    requires length != 0.0
  {
    var glMargin := margin * 2.0 / length;
    var glRadius := dimension / length;
    match side
    case Low => -1.0 + glRadius + glMargin
    case High => 1.0 - glRadius - glMargin
    case Middle => glMargin
  }

  /** `UserInterface.draw` hands each rectangle the screen size divided by
      the scale. The quad is then drawn where `getOrigin` puts the
      rectangle: its centre is the origin's pixels mapped onto GL
      coordinates (`p = 2 o / w - 1`), and its half-extent is half the
      scaled dimension in pixels (`e w = d scale`). */
  lemma DrawnAtOrigin(rect: Rectangle, screenWidth: int, screenHeight: int, scale: real)
    requires Sized(rect) && rect.anchor != Center
    requires screenWidth != 0 && screenHeight != 0 && scale != 0.0
    ensures GetOrigin(rect, screenWidth, screenHeight, scale).Ok?
    ensures Placement(rect, screenWidth as real / scale, screenHeight as real / scale).Ok?
    ensures var o := GetOrigin(rect, screenWidth, screenHeight, scale).value;
            var p := Placement(rect, screenWidth as real / scale, screenHeight as real / scale).value;
            (p.0[0] + 1.0) * screenWidth as real == 2.0 * o[0] && (p.0[1] + 1.0) * screenHeight as real == 2.0 * o[1]
            && p.1[0] * screenWidth as real == rect.dimensions[0] * scale
            && p.1[1] * screenHeight as real == rect.dimensions[1] * scale
  {
    DrawnAtOriginX(rect, screenWidth, screenHeight, scale);
    DrawnAtOriginY(rect, screenWidth, screenHeight, scale);
    ScaledExtent(rect, screenWidth, screenHeight, scale);
  }

  /** The half-extent of the quad in `DrawnAtOrigin`. */
  lemma ScaledExtent(rect: Rectangle, screenWidth: int, screenHeight: int, scale: real)
    requires Sized(rect) && rect.anchor != Center
    requires screenWidth != 0 && screenHeight != 0 && scale != 0.0
    ensures Placement(rect, screenWidth as real / scale, screenHeight as real / scale).Ok?
    ensures var p := Placement(rect, screenWidth as real / scale, screenHeight as real / scale).value;
            p.1[0] * screenWidth as real == rect.dimensions[0] * scale
            && p.1[1] * screenHeight as real == rect.dimensions[1] * scale
  {
    PlacementComponents(rect, screenWidth as real / scale, screenHeight as real / scale);
    var p := Placement(rect, screenWidth as real / scale, screenHeight as real / scale).value;
    ExtentAgrees(p.1[0], rect.dimensions[0], screenWidth as real, scale);
    ExtentAgrees(p.1[1], rect.dimensions[1], screenHeight as real, scale);
  }

  /** `DrawnAtOrigin` along x. */
  lemma DrawnAtOriginX(rect: Rectangle, screenWidth: int, screenHeight: int, scale: real)
    requires Sized(rect) && rect.anchor != Center
    requires screenWidth != 0 && screenHeight != 0 && scale != 0.0
    ensures GetOrigin(rect, screenWidth, screenHeight, scale).Ok?
    ensures Placement(rect, screenWidth as real / scale, screenHeight as real / scale).Ok?
    ensures var o := GetOrigin(rect, screenWidth, screenHeight, scale).value;
            var p := Placement(rect, screenWidth as real / scale, screenHeight as real / scale).value;
            (p.0[0] + 1.0) * screenWidth as real == 2.0 * o[0]
  {
    OriginComponents(rect, screenWidth, screenHeight, scale);
    PlacementComponents(rect, screenWidth as real / scale, screenHeight as real / scale);
    var o := GetOrigin(rect, screenWidth, screenHeight, scale).value;
    var p := Placement(rect, screenWidth as real / scale, screenHeight as real / scale).value;
    AxisAgrees(p.0[0], o[0], rect.margins[0], rect.dimensions[0], screenWidth as real, scale, XSide(rect.anchor));
  }

  /** `DrawnAtOrigin` along y. */
  lemma DrawnAtOriginY(rect: Rectangle, screenWidth: int, screenHeight: int, scale: real)
    requires Sized(rect) && rect.anchor != Center
    requires screenWidth != 0 && screenHeight != 0 && scale != 0.0
    ensures GetOrigin(rect, screenWidth, screenHeight, scale).Ok?
    ensures Placement(rect, screenWidth as real / scale, screenHeight as real / scale).Ok?
    ensures var o := GetOrigin(rect, screenWidth, screenHeight, scale).value;
            var p := Placement(rect, screenWidth as real / scale, screenHeight as real / scale).value;
            (p.0[1] + 1.0) * screenHeight as real == 2.0 * o[1]
  {
    OriginComponents(rect, screenWidth, screenHeight, scale);
    PlacementComponents(rect, screenWidth as real / scale, screenHeight as real / scale);
    var o := GetOrigin(rect, screenWidth, screenHeight, scale).value;
    var p := Placement(rect, screenWidth as real / scale, screenHeight as real / scale).value;
    AxisAgrees(p.0[1], o[1], rect.margins[1], rect.dimensions[1], screenHeight as real, scale, YSide(rect.anchor));
  }

  /** `getOrigin` coordinate by coordinate. */
  lemma OriginComponents(rect: Rectangle, screenWidth: int, screenHeight: int, scale: real)
    requires Sized(rect) && rect.anchor != Center
    ensures GetOrigin(rect, screenWidth, screenHeight, scale).Ok?
    ensures var o := GetOrigin(rect, screenWidth, screenHeight, scale).value;
            o[0] == PixelAt(XSide(rect.anchor), rect.margins[0], rect.dimensions[0], screenWidth as real, scale)
            && o[1] == PixelAt(YSide(rect.anchor), rect.margins[1], rect.dimensions[1], screenHeight as real, scale)
  {
  }

  /** The `mTransform` translation and scale coordinate by coordinate. */
  lemma PlacementComponents(rect: Rectangle, width: real, height: real)
    requires Sized(rect) && rect.anchor != Center && width != 0.0 && height != 0.0
    ensures Placement(rect, width, height).Ok?
    ensures var p := Placement(rect, width, height).value;
            p.0[0] == GlAt(XSide(rect.anchor), rect.margins[0], rect.dimensions[0], width)
            && p.0[1] == GlAt(YSide(rect.anchor), rect.margins[1], rect.dimensions[1], height)
            && p.1[0] == rect.dimensions[0] / width && p.1[1] == rect.dimensions[1] / height
  {
  }

  /** One axis of `DrawnAtOrigin`. */
  lemma AxisAgrees(gl: real, pixel: real, margin: real, dimension: real, w: real, scale: real, side: Side)
    requires w != 0.0 && scale != 0.0
    requires gl == GlAt(side, margin, dimension, w / scale)
    requires pixel == PixelAt(side, margin, dimension, w, scale)
    ensures (gl + 1.0) * w == 2.0 * pixel
  {
    ScaledRatio(margin * 2.0, w, scale);
    ScaledRatio(dimension, w, scale);
  }

  /** The half-extent of the quad along one axis. */
  lemma ExtentAgrees(extent: real, dimension: real, w: real, scale: real)
    requires w != 0.0 && scale != 0.0
    requires extent == dimension / (w / scale)
    ensures extent * w == dimension * scale
  {
    ScaledRatio(dimension, w, scale);
  }

  /** Dividing by `w / scale` and multiplying by `w` scales by `scale`. */
  lemma ScaledRatio(a: real, w: real, scale: real)
    requires w != 0.0 && scale != 0.0
    ensures (a / (w / scale)) * w == a * scale
  {
    var q := a / (w / scale);
    assert q * (w / scale) == a;
    assert (w / scale) * scale == w;
    assert q * w == (q * (w / scale)) * scale;
  }

  // ----- hit testing -----

  /** A `UICollidable`; the only one there is, `CircleUICollidable`. */
  datatype Collidable = Circle(radius: real)

  /** `isWithin(buttonOrigin, scale, touchPos)`: the distance from the
      origin to the touch is at most the radius times the scale. The
      subtraction throws on vectors of different sizes. */
  function IsWithin(c: Collidable, origin: seq<real>, scale: real, touch: seq<real>, sqrt: real -> real): (r: Result<bool>)
    requires IsSqrt(sqrt)
    ensures r.Err? <==> |origin| != |touch|
    ensures r.Err? ==> r.error == IllegalArgument
    ensures r.Ok? ==> (r.value <==> 0.0 <= c.radius * scale
                                     && DistanceSquared(origin, touch) <= (c.radius * scale) * (c.radius * scale))
  {
    var d :- Vectors.Minus(origin, touch);
    DistanceSquaredIsDifference(origin, touch, d);
    Vectors.SumOfSquaresNonNegative(d);
    SqrtAtMost(sqrt, Vectors.SumOfSquares(d), c.radius * scale);
    Ok(Vectors.Length(d, sqrt) <= c.radius * scale)
  }

  /** The squared Euclidean distance of two points. */
  function DistanceSquared(a: seq<real>, b: seq<real>): real
    requires |a| == |b|
  {
    if |a| == 0 then 0.0 else (a[0] - b[0]) * (a[0] - b[0]) + DistanceSquared(a[1..], b[1..])
  }

  lemma {:induction false} DistanceSquaredIsDifference(a: seq<real>, b: seq<real>, d: seq<real>)
    requires |a| == |b| == |d| && forall i :: 0 <= i < |d| ==> d[i] == a[i] - b[i]
    ensures DistanceSquared(a, b) == Vectors.SumOfSquares(d)
  {
    if |a| > 0 {
      DistanceSquaredIsDifference(a[1..], b[1..], d[1..]);
    }
  }

  // ----- UIButton -----

  /** What one `touch` call decides: whether the button consumed the event,
      its registered pointers afterwards, and whether it fired its action. */
  datatype TouchResult = TouchResult(consumed: bool, ids: set<int>, fired: bool)

  /** `UIButton.touch(event, screenWidth, screenHeight, scale)` on a button
      whose registered pointers are `ids`. The pointer the action is about
      is the one at the index in the action word. A registered pointer's
      events are always consumed, and lifting it deregisters it; an
      unregistered pointer that goes down inside the button (touch y
      flipped to grow upwards) is registered. The action fires when the
      first pointer registers and when the last one leaves. */
  function TouchStep(rect: Rectangle, collidable: Collidable, ids: set<int>, event: MotionEvent,
                     screenWidth: int, screenHeight: int, scale: real, sqrt: real -> real): (r: Result<TouchResult>)
    requires IsSqrt(sqrt)
    ensures r.Err? ==> r.error in {IllegalArgument, IndexOutOfBounds, NotImplemented}
    ensures r.Err? <==> PointerIndex(event) >= |event.pointers|
                        || (event.pointers[PointerIndex(event)].id !in ids && IsDownAction(event.action)
                            && (!Sized(rect) || rect.anchor == Center))
    ensures r.Ok? ==> var id := event.pointers[PointerIndex(event)].id;
                      r.value.ids - {id} == ids - {id}
                      && (r.value.consumed <==> id in r.value.ids || id in ids)
    ensures r.Ok? ==> (r.value.fired <==> (ids == {}) != (r.value.ids == {}))
    ensures r.Ok? && r.value.fired ==> if ids == {} then IsDownAction(event.action) else IsUpAction(event.action)
    ensures r.Ok? ==> var id := event.pointers[PointerIndex(event)].id;
                      id in ids ==> r.value.consumed && r.value.ids == if IsUpAction(event.action) then ids - {id} else ids
    ensures r.Ok? ==> var id := event.pointers[PointerIndex(event)].id;
                      id !in ids && !IsDownAction(event.action) ==> r.value == TouchResult(false, ids, false)
  {
    var index := PointerIndex(event);
    var id :- PointerId(event, index);
    var masked := ActionMasked(event);
    if id in ids then
      if masked == ActionUp || masked == ActionPointerUp then
        var rest := ids - {id};
        Ok(TouchResult(true, rest, |rest| < 1))
      else
        Ok(TouchResult(true, ids, false))
    else if masked == ActionDown || masked == ActionPointerDown then
      var origin :- GetOrigin(rect, screenWidth, screenHeight, scale);
      var p := event.pointers[index];
      var within := IsWithin(collidable, origin, scale, [p.x, screenHeight as real - p.y], sqrt).value;
      if within then
        var more := ids + {id};
        Ok(TouchResult(true, more, |more| == 1))
      else
        Ok(TouchResult(false, ids, false))
    else
      Ok(TouchResult(false, ids, false))
  }

  /** Lifting a registered pointer deregisters it and is consumed; the
      action fires exactly when it was the last pointer on the button. */
  lemma ReleaseDeregisters(rect: Rectangle, collidable: Collidable, ids: set<int>, event: MotionEvent,
                           screenWidth: int, screenHeight: int, scale: real, sqrt: real -> real)
    requires IsSqrt(sqrt) && PointerIndex(event) < |event.pointers|
    requires event.pointers[PointerIndex(event)].id in ids && IsUpAction(event.action)
    ensures var id := event.pointers[PointerIndex(event)].id;
            TouchStep(rect, collidable, ids, event, screenWidth, screenHeight, scale, sqrt)
            == Ok(TouchResult(true, ids - {id}, ids - {id} == {}))
  {
  }

  /** Every other event of a registered pointer is consumed and changes
      nothing: the pointer stays registered and no action fires. */
  lemma HeldPointerKept(rect: Rectangle, collidable: Collidable, ids: set<int>, event: MotionEvent,
                        screenWidth: int, screenHeight: int, scale: real, sqrt: real -> real)
    requires IsSqrt(sqrt) && PointerIndex(event) < |event.pointers|
    requires event.pointers[PointerIndex(event)].id in ids && !IsUpAction(event.action)
    ensures TouchStep(rect, collidable, ids, event, screenWidth, screenHeight, scale, sqrt) == Ok(TouchResult(true, ids, false))
  {
  }

  /** With two pointers on the button, lifting the first keeps the button
      held without firing; lifting the second releases it and fires. */
  lemma TwoPointerRelease(rect: Rectangle, collidable: Collidable, first: MotionEvent, second: MotionEvent,
                          screenWidth: int, screenHeight: int, scale: real, sqrt: real -> real)
    requires IsSqrt(sqrt)
    requires PointerIndex(first) < |first.pointers| && PointerIndex(second) < |second.pointers|
    requires IsUpAction(first.action) && IsUpAction(second.action)
    requires first.pointers[PointerIndex(first)].id != second.pointers[PointerIndex(second)].id
    ensures var a := first.pointers[PointerIndex(first)].id;
            var b := second.pointers[PointerIndex(second)].id;
            TouchStep(rect, collidable, {a, b}, first, screenWidth, screenHeight, scale, sqrt) == Ok(TouchResult(true, {b}, false))
            && TouchStep(rect, collidable, {b}, second, screenWidth, screenHeight, scale, sqrt) == Ok(TouchResult(true, {}, true))
  {
    var a := first.pointers[PointerIndex(first)].id;
    var b := second.pointers[PointerIndex(second)].id;
    ReleaseDeregisters(rect, collidable, {a, b}, first, screenWidth, screenHeight, scale, sqrt);
    assert {a, b} - {a} == {b};
    ReleaseDeregisters(rect, collidable, {b}, second, screenWidth, screenHeight, scale, sqrt);
    assert {b} - {b} == {};
  }

  /** An unregistered pointer going down is consumed, and registered,
      exactly when it lands inside the circle around the button's origin;
      the action fires when no other pointer held the button. */
  lemma PressInsideRegisters(rect: Rectangle, collidable: Collidable, ids: set<int>, event: MotionEvent,
                             screenWidth: int, screenHeight: int, scale: real, sqrt: real -> real)
    requires IsSqrt(sqrt) && Sized(rect) && rect.anchor != Center
    requires PointerIndex(event) < |event.pointers| && IsDownAction(event.action)
    requires event.pointers[PointerIndex(event)].id !in ids
    ensures GetOrigin(rect, screenWidth, screenHeight, scale).Ok?
    ensures var p := event.pointers[PointerIndex(event)];
            var o := GetOrigin(rect, screenWidth, screenHeight, scale).value;
            var bound := collidable.radius * scale;
            var inside := 0.0 <= bound && InPlaneDistanceSquared(o, p.x, screenHeight as real - p.y) <= bound * bound;
            TouchStep(rect, collidable, ids, event, screenWidth, screenHeight, scale, sqrt)
            == Ok(if inside then TouchResult(true, ids + {p.id}, ids == {}) else TouchResult(false, ids, false))
  {
    var p := event.pointers[PointerIndex(event)];
    var o := GetOrigin(rect, screenWidth, screenHeight, scale).value;
    var touch := [p.x, screenHeight as real - p.y];
    var bound := collidable.radius * scale;
    WithinCircle(collidable, o, scale, touch, sqrt);
    var inside := 0.0 <= bound && InPlaneDistanceSquared(o, p.x, screenHeight as real - p.y) <= bound * bound;
    assert IsWithin(collidable, o, scale, touch, sqrt).value == inside;
    if inside && ids != {} {
      assert |ids + {p.id}| == |ids| + 1;
    }
  }

  /** The hit test on the plane, written out. */
  lemma WithinCircle(c: Collidable, o: seq<real>, scale: real, touch: seq<real>, sqrt: real -> real)
    requires IsSqrt(sqrt) && |o| == 2 && |touch| == 2
    ensures IsWithin(c, o, scale, touch, sqrt)
            == Ok(0.0 <= c.radius * scale
                  && InPlaneDistanceSquared(o, touch[0], touch[1]) <= (c.radius * scale) * (c.radius * scale))
  {
    PlaneDistance(o, touch);
  }

  /** The squared distance from a point of the plane to `(x, y)`. */
  function InPlaneDistanceSquared(o: seq<real>, x: real, y: real): real
    requires |o| == 2
  {
    (o[0] - x) * (o[0] - x) + (o[1] - y) * (o[1] - y)
  }

  lemma PlaneDistance(o: seq<real>, touch: seq<real>)
    requires |o| == 2 && |touch| == 2
    ensures DistanceSquared(o, touch) == InPlaneDistanceSquared(o, touch[0], touch[1])
  {
    assert DistanceSquared(o[1..], touch[1..]) == (o[1] - touch[1]) * (o[1] - touch[1]) + DistanceSquared(o[2..], touch[2..]);
  }

  /** A button anchored at `CENTER` throws on every press that is not
      already its own, since `getOrigin` is not implemented there. */
  lemma CenterButtonPressThrows(rect: Rectangle, collidable: Collidable, ids: set<int>, event: MotionEvent,
                                screenWidth: int, screenHeight: int, scale: real, sqrt: real -> real)
    requires IsSqrt(sqrt) && Sized(rect) && rect.anchor == Center
    requires PointerIndex(event) < |event.pointers| && IsDownAction(event.action)
    requires event.pointers[PointerIndex(event)].id !in ids
    ensures TouchStep(rect, collidable, ids, event, screenWidth, screenHeight, scale, sqrt) == Err(NotImplemented)
  {
  }

  /** The action words a button fires over a series of touches, and its
      registered pointers afterwards; an exception ends the series, as it
      leaves `onTouchEvent`. */
  function Fired(rect: Rectangle, collidable: Collidable, ids: set<int>, events: seq<MotionEvent>,
                 screenWidth: int, screenHeight: int, scale: real, sqrt: real -> real): (r: (seq<int>, set<int>))
    requires IsSqrt(sqrt)
    ensures |r.0| <= |events|
    decreases |events|
  {
    if |events| == 0 then ([], ids)
    else match TouchStep(rect, collidable, ids, events[0], screenWidth, screenHeight, scale, sqrt)
      case Err(_) => ([], ids)
      case Ok(t) =>
        var rest := Fired(rect, collidable, t.ids, events[1..], screenWidth, screenHeight, scale, sqrt);
        ((if t.fired then [events[0].action] else []) + rest.0, rest.1)
  }

  /** `actions` alternate between presses and releases, starting with a
      release when the button is `pressed`, and leave it `finallyPressed`. */
  predicate Alternates(actions: seq<int>, pressed: bool, finallyPressed: bool)
    decreases |actions|
  {
    if |actions| == 0 then pressed == finallyPressed
    else (if pressed then IsUpAction(actions[0]) else IsDownAction(actions[0]))
         && Alternates(actions[1..], !pressed, finallyPressed)
  }

  /** However pointers come and go, the actions a button fires alternate
      between a press and a release, and it ends pressed exactly when the
      last one was a press. */
  lemma {:induction false} FiredAlternates(rect: Rectangle, collidable: Collidable, ids: set<int>,
                                           events: seq<MotionEvent>, screenWidth: int, screenHeight: int,
                                           scale: real, sqrt: real -> real)
    requires IsSqrt(sqrt)
    decreases |events|
    ensures var (f, last) := Fired(rect, collidable, ids, events, screenWidth, screenHeight, scale, sqrt);
            Alternates(f, ids != {}, last != {})
  {
    if |events| > 0 {
      var step := TouchStep(rect, collidable, ids, events[0], screenWidth, screenHeight, scale, sqrt);
      if step.Ok? {
        var t := step.value;
        FiredAlternates(rect, collidable, t.ids, events[1..], screenWidth, screenHeight, scale, sqrt);
        var rest := Fired(rect, collidable, t.ids, events[1..], screenWidth, screenHeight, scale, sqrt);
        var f := Fired(rect, collidable, ids, events, screenWidth, screenHeight, scale, sqrt).0;
        if t.fired {
          assert f == [events[0].action] + rest.0 && f[1..] == rest.0;
          assert (t.ids != {}) == !(ids != {});
        } else {
          assert f == rest.0 && (t.ids != {}) == (ids != {});
        }
      }
    }
  }

  /** The trace of drawing a button that is `pressed` or not: the pressed
      uniform, then its rectangle. */
  function ButtonTrace(rect: Rectangle, pressed: bool, width: real, height: real): Trace
    requires width != 0.0 && height != 0.0
  {
    var t := DrawTrace(rect, width, height);
    Trace([PressedUniform(rect.shader, pressed)] + t.effects, t.outcome)
  }

  /** `UIButton`: a rectangle with a collidable and an action; it keeps the
      ids of the pointers pressing it and whether it is pressed.
      `button` identifies its action lambda in the effect log. */
  class UIButton {
    const rect: Rectangle
    const collidable: Collidable
    const button: nat
    var registeredPointerIds: set<int>
    var isPressed: bool

    /** The button is pressed exactly while some pointer holds it. */
    ghost predicate Valid()
      reads this
    {
      isPressed <==> registeredPointerIds != {}
    }

    constructor (rect: Rectangle, collidable: Collidable, button: nat)
      ensures Valid()
      ensures this.rect == rect && this.collidable == collidable && this.button == button
      ensures registeredPointerIds == {} && !isPressed
    {
      this.rect := rect;
      this.collidable := collidable;
      this.button := button;
      registeredPointerIds := {};
      isPressed := false;
    }

    /** `touch(event, screenWidth, screenHeight, scale)`: updates the
        registered pointers as `TouchStep` decides and invokes the action
        with the raw action word when it fires. */
    method Touch(event: MotionEvent, screenWidth: int, screenHeight: int, scale: real, sqrt: real -> real,
                 gl: Context) returns (r: Result<bool>)
      requires IsSqrt(sqrt) && Valid()
      modifies this, gl
      ensures Valid()
      ensures var step := TouchStep(rect, collidable, old(registeredPointerIds), event, screenWidth, screenHeight, scale, sqrt);
              match step
              case Err(e) => r == Err(e) && registeredPointerIds == old(registeredPointerIds) && gl.log == old(gl.log)
              case Ok(t) =>
                r == Ok(t.consumed) && registeredPointerIds == t.ids
                && gl.log == old(gl.log) + (if t.fired then [ButtonAction(button, event.action)] else [])
    {
      ghost var step := TouchStep(rect, collidable, registeredPointerIds, event, screenWidth, screenHeight, scale, sqrt);
      var masked := ActionMasked(event);
      var index := PointerIndex(event);
      var id :- PointerId(event, index);
      if id in registeredPointerIds {
        if masked == ActionUp || masked == ActionPointerUp {
          registeredPointerIds := registeredPointerIds - {id};
          assert step == Ok(TouchResult(true, registeredPointerIds, |registeredPointerIds| < 1));
          if |registeredPointerIds| < 1 {
            isPressed := false;
            gl.Emit(ButtonAction(button, event.action));
          }
        } else {
          assert step == Ok(TouchResult(true, registeredPointerIds, false));
        }
        return Ok(true);
      } else if masked == ActionDown || masked == ActionPointerDown {
        var origin :- GetOrigin(rect, screenWidth, screenHeight, scale);
        var p := event.pointers[index];
        var within := IsWithin(collidable, origin, scale, [p.x, screenHeight as real - p.y], sqrt).value;
        if within {
          registeredPointerIds := registeredPointerIds + {id};
          assert step == Ok(TouchResult(true, registeredPointerIds, |registeredPointerIds| == 1));
          if |registeredPointerIds| == 1 {
            isPressed := true;
            gl.Emit(ButtonAction(button, event.action));
          }
          return Ok(true);
        }
        assert step == Ok(TouchResult(false, registeredPointerIds, false));
      } else {
        assert step == Ok(TouchResult(false, registeredPointerIds, false));
      }
      return Ok(false);
    }

    /** `UIButton.load()`, inherited: loads the shader. */
    method Load(gl: Context)
      modifies gl
      ensures gl.log == old(gl.log) + [ShaderLoad(rect.shader)]
    {
      rect.Load(gl);
    }

    /** `UIButton.draw(width, height)`: tells the shader whether the button
        is pressed, then draws the rectangle. */
    method Draw(width: real, height: real, gl: Context) returns (r: Outcome)
      requires width != 0.0 && height != 0.0
      modifies gl
      ensures gl.log == old(gl.log) + ButtonTrace(rect, isPressed, width, height).effects
      ensures r == ButtonTrace(rect, isPressed, width, height).outcome
    {
      gl.Emit(PressedUniform(rect.shader, isPressed));
      r := rect.Draw(width, height, gl);
      AppendAssociates(old(gl.log), [PressedUniform(rect.shader, isPressed)], DrawTrace(rect, width, height).effects);
    }
  }
}
