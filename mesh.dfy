/** Mesh.kt: a triangle mesh with its construction checks and its draw call,
    and the composite meshes that fan `load`/`draw` out to their parts. */
module Meshes {
  import opened Exceptions
  import opened Gl
  import Vectors

  /** Coordinates per vertex, the divisor of every construction check. */
  const CoordsPerVertex: nat := 3

  /** A constructed mesh: the arrays it was given (copied into GL buffers)
      and its shader. `normals` is Kotlin's nullable `FloatArray?`. */
  datatype Mesh = Mesh(vertexCoords: seq<real>, normals: Option<seq<real>>, texCoords: seq<real>,
                       drawOrder: seq<int>, shader: Shader)

  /** The primary constructor and its `init` checks: vertex coordinates,
      supplied normals and draw order must come in whole vertices. */
  function NewMesh(vertexCoords: seq<real>, normals: Option<seq<real>>, texCoords: seq<real>,
                   drawOrder: seq<int>, shader: Shader): (r: Result<Mesh>)
    ensures r.Ok? <==> |vertexCoords| % 3 == 0 && (normals.Some? ==> |normals.value| % 3 == 0)
                       && |drawOrder| % 3 == 0
    ensures r.Err? ==> r.error == IllegalArgument
    ensures r.Ok? ==> r.value.vertexCoords == vertexCoords && r.value.normals == normals
                      && r.value.texCoords == texCoords && r.value.drawOrder == drawOrder
                      && r.value.shader == shader
  {
    if |vertexCoords| % CoordsPerVertex != 0 then Err(IllegalArgument)
    else if normals.Some? && |normals.value| % CoordsPerVertex != 0 then Err(IllegalArgument)
    else if |drawOrder| % CoordsPerVertex != 0 then Err(IllegalArgument)
    else Ok(Mesh(vertexCoords, normals, texCoords, drawOrder, shader))
  }

  /** The secondary constructor: the primary one without normals. */
  function NewMeshWithoutNormals(vertexCoords: seq<real>, texCoords: seq<real>, drawOrder: seq<int>,
                                 shader: Shader): (r: Result<Mesh>)
    ensures r.Ok? <==> |vertexCoords| % 3 == 0 && |drawOrder| % 3 == 0
    ensures r.Ok? ==> r.value.normals == None
  {
    NewMesh(vertexCoords, None, texCoords, drawOrder, shader)
  }

  /** Texture coordinates are never checked: any array is accepted. */
  lemma TexCoordsUnchecked(vertexCoords: seq<real>, normals: Option<seq<real>>, t1: seq<real>,
                           t2: seq<real>, drawOrder: seq<int>, shader: Shader)
    ensures NewMesh(vertexCoords, normals, t1, drawOrder, shader).Ok?
            == NewMesh(vertexCoords, normals, t2, drawOrder, shader).Ok?
  {
  }

  /** The attribute arrays `draw` binds, in order: positions, the normals
      only when the mesh has them, texture coordinates. */
  function AttributesOf(m: Mesh): (r: seq<Attribute>)
    ensures Position in r && TexCoord in r && (Normal in r <==> m.normals.Some?)
  {
    if m.normals.Some? then [Position, Normal, TexCoord] else [Position, TexCoord]
  }

  /** Components per vertex of an attribute array. */
  function Components(a: Attribute): nat
  {
    if a == TexCoord then 2 else 3
  }

  /** Enabling the arrays, each with its vertex attribute pointer. */
  function Enables(s: Shader, attributes: seq<Attribute>): seq<Effect>
  {
    if |attributes| == 0 then []
    else [EnableAttribute(s, attributes[0], Components(attributes[0]))] + Enables(s, attributes[1..])
  }

  /** Disabling the arrays, in the same order. */
  function Disables(s: Shader, attributes: seq<Attribute>): seq<Effect>
  {
    if |attributes| == 0 then []
    else [DisableAttribute(s, attributes[0])] + Disables(s, attributes[1..])
  }

  /** `Mesh.draw(position, rotation)`: binds textures, uploads the model
      matrix, enables the attribute arrays, draws the elements and disables
      the arrays again. Reading `position.x/y/z` and `rotation.a/x/y/z`
      throws on vectors that are too short, after the textures were bound. */
  function DrawTrace(m: Mesh, position: seq<real>, rotation: seq<real>): (r: Trace)
    ensures r.outcome.Fail? <==> |position| < 3 || |rotation| < 4
    ensures r.outcome.Fail? ==> r.outcome.error == IndexOutOfBounds
                                && r.effects == [BindTextures(m.shader)]
  {
    var s := m.shader;
    if |position| < 3 || |rotation| < 4 then Trace([BindTextures(s)], Fail(IndexOutOfBounds))
    else
      var model := TranslateThenRotate(position[..3], rotation[3], rotation[..3]);
      Trace([BindTextures(s), ModelUniform(s, model)] + Enables(s, AttributesOf(m))
            + [DrawElements(|m.drawOrder|)] + Disables(s, AttributesOf(m)), Pass)
  }

  /** The attributes enabled somewhere in `effects`. */
  function Enabled(effects: seq<Effect>): set<Attribute>
  {
    if |effects| == 0 then {}
    else (if effects[0].EnableAttribute? then {effects[0].attribute} else {}) + Enabled(effects[1..])
  }

  /** The attributes disabled somewhere in `effects`. */
  function Disabled(effects: seq<Effect>): set<Attribute>
  {
    if |effects| == 0 then {}
    else (if effects[0].DisableAttribute? then {effects[0].attribute} else {}) + Disabled(effects[1..])
  }

  lemma {:induction false} EnabledAppend(a: seq<Effect>, b: seq<Effect>)
    ensures Enabled(a + b) == Enabled(a) + Enabled(b)
    ensures Disabled(a + b) == Disabled(a) + Disabled(b)
  {
    if |a| > 0 {
      assert (a + b)[1..] == a[1..] + b;
      EnabledAppend(a[1..], b);
    } else {
      assert a + b == b;
    }
  }

  lemma {:induction false} EnablesPair(s: Shader, attributes: seq<Attribute>)
    ensures Enabled(Enables(s, attributes)) == Disabled(Disables(s, attributes))
            == set a | a in attributes
    ensures Disabled(Enables(s, attributes)) == {} && Enabled(Disables(s, attributes)) == {}
    ensures |Enables(s, attributes)| == |attributes|
  {
    if |attributes| > 0 {
      var a := attributes[0];
      EnablesPair(s, attributes[1..]);
      EnabledAppend([EnableAttribute(s, a, Components(a))], Enables(s, attributes[1..]));
      EnabledAppend([DisableAttribute(s, a)], Disables(s, attributes[1..]));
      EffectSingle(EnableAttribute(s, a, Components(a)));
      EffectSingle(DisableAttribute(s, a));
      assert attributes == [a] + attributes[1..];
    }
  }

  /** `draw` pairs its attribute state: before the draw call it only enables
      arrays, after it only disables them, it disables exactly the arrays it
      enabled, and it touches the normal array exactly when the mesh has
      normals. */
  lemma DrawPairsAttributes(m: Mesh, position: seq<real>, rotation: seq<real>)
    requires 3 <= |position| && 4 <= |rotation|
    ensures var t := DrawTrace(m, position, rotation);
      var k := |AttributesOf(m)| + 2;
      t.outcome == Pass && k < |t.effects|
      && t.effects[k] == DrawElements(|m.drawOrder|)
      && Disabled(t.effects[..k]) == {} && Enabled(t.effects[k + 1..]) == {}
      && Enabled(t.effects[..k]) == Disabled(t.effects[k + 1..])
      && (Normal in Enabled(t.effects[..k]) <==> m.normals.Some?)
      && Position in Enabled(t.effects[..k]) && TexCoord in Enabled(t.effects[..k])
  {
    var s := m.shader;
    var attrs := AttributesOf(m);
    var model := TranslateThenRotate(position[..3], rotation[3], rotation[..3]);
    var t := DrawTrace(m, position, rotation);
    var pre := [BindTextures(s), ModelUniform(s, model)] + Enables(s, attrs);
    var post := Disables(s, attrs);
    var k := |attrs| + 2;
    EnablesPair(s, attrs);
    assert t.effects == pre + [DrawElements(|m.drawOrder|)] + post;
    assert t.effects[..k] == pre;
    assert t.effects[k + 1..] == post;
    EffectSingle(BindTextures(s));
    EffectSingle(ModelUniform(s, model));
    EnabledAppend([BindTextures(s)], [ModelUniform(s, model)]);
    EnabledAppend([BindTextures(s), ModelUniform(s, model)], Enables(s, attrs));
    assert [BindTextures(s)] + [ModelUniform(s, model)] == [BindTextures(s), ModelUniform(s, model)];
  }

  lemma EffectSingle(e: Effect)
    ensures Enabled([e]) == if e.EnableAttribute? then {e.attribute} else {}
    ensures Disabled([e]) == if e.DisableAttribute? then {e.attribute} else {}
  {
    assert [e][1..] == [];
  }

  // ----- CompoundMesh -----

  /** `CompoundMesh.load`: every part's `load`, once each, in list order.
      `Mesh.load` keeps no "already loaded" flag: every call loads the
      shader again. */
  method LoadParts(meshes: seq<Mesh>, gl: Context)
    modifies gl
    ensures gl.log == old(gl.log) + ShaderLoads(meshes)
  {
    ghost var loads := ShaderLoads(meshes);
    for i := 0 to |meshes|
      invariant gl.log == old(gl.log) + loads[..i]
    {
      gl.Emit(ShaderLoad(meshes[i].shader));
      assert loads[..i + 1] == loads[..i] + [loads[i]];
    }
    assert loads[..|meshes|] == loads;
  }

  /** The trace of each part's `draw(position, rotation)`, in list order. */
  function DrawTraces(meshes: seq<Mesh>, position: seq<real>, rotation: seq<real>): (r: seq<Trace>)
    ensures |r| == |meshes|
  {
    if |meshes| == 0 then []
    else DrawTraces(meshes[..|meshes| - 1], position, rotation) + [DrawTrace(meshes[|meshes| - 1], position, rotation)]
  }

  /** Entry `i` of `DrawTraces` is part `i`'s trace. */
  lemma {:induction false} DrawTracesAt(meshes: seq<Mesh>, position: seq<real>, rotation: seq<real>, i: nat)
    requires i < |meshes|
    ensures DrawTraces(meshes, position, rotation)[i] == DrawTrace(meshes[i], position, rotation)
  {
    if i < |meshes| - 1 {
      var init := meshes[..|meshes| - 1];
      DrawTracesAt(init, position, rotation, i);
      assert init[i] == meshes[i];
    }
  }

  /** What `CompoundMesh.draw(position, rotation)` does: each part's `draw`
      with the same arguments, in list order, up to the first that throws. */
  function PartsTrace(meshes: seq<Mesh>, position: seq<real>, rotation: seq<real>): Trace
  {
    Chain(DrawTraces(meshes, position, rotation), |meshes|)
  }

  /** With vectors long enough no part throws: every part is drawn once, in
      list order, each with the same position and rotation. */
  lemma PartsTraceAllDrawn(meshes: seq<Mesh>, position: seq<real>, rotation: seq<real>)
    requires 3 <= |position| && 4 <= |rotation|
    ensures PartsTrace(meshes, position, rotation)
            == Trace(Concat(DrawTraces(meshes, position, rotation), |meshes|), Pass)
  {
    var ts := DrawTraces(meshes, position, rotation);
    forall j | 0 <= j < |meshes|
      ensures ts[j].outcome == Pass
    {
      DrawTracesAt(meshes, position, rotation, j);
    }
    ChainAllPass(ts, |meshes|);
  }

  /** With a vector too short the first part throws after binding its
      textures, and no later part is visited. */
  lemma PartsTraceStopsAtFirst(meshes: seq<Mesh>, position: seq<real>, rotation: seq<real>)
    requires |position| < 3 || |rotation| < 4
    requires 0 < |meshes|
    ensures PartsTrace(meshes, position, rotation)
            == Trace([BindTextures(meshes[0].shader)], Fail(IndexOutOfBounds))
  {
    DrawTracesAt(meshes, position, rotation, 0);
    ChainFirstFail(DrawTraces(meshes, position, rotation), 0, |meshes|);
  }

  /** `CompoundMesh.draw(position, rotation)`. */
  method DrawParts(meshes: seq<Mesh>, position: seq<real>, rotation: seq<real>, gl: Context) returns (r: Outcome)
    modifies gl
    ensures gl.log == old(gl.log) + PartsTrace(meshes, position, rotation).effects
    ensures r == PartsTrace(meshes, position, rotation).outcome
  {
    ghost var ts := DrawTraces(meshes, position, rotation);
    assert gl.log == old(gl.log) + Chain(ts, 0).effects;
    for i := 0 to |meshes|
      invariant Chain(ts, i).outcome == Pass
      invariant gl.log == old(gl.log) + Chain(ts, i).effects
    {
      r := DrawPart(meshes, ts, i, position, rotation, old(gl.log), gl);
      if r.Fail? {
        return;
      }
    }
    r := Pass;
  }

  /** One step of `CompoundMesh.draw`: part `i` drawn, continuing the chain. */
  method DrawPart(meshes: seq<Mesh>, ghost ts: seq<Trace>, i: nat, position: seq<real>, rotation: seq<real>,
                  ghost start: seq<Effect>, gl: Context) returns (r: Outcome)
    requires ts == DrawTraces(meshes, position, rotation) && i < |meshes|
    requires Chain(ts, i).outcome == Pass && gl.log == start + Chain(ts, i).effects
    modifies gl
    ensures r.Pass? ==> Chain(ts, i + 1).outcome == Pass && gl.log == start + Chain(ts, i + 1).effects
    ensures r.Fail? ==> r == Chain(ts, |ts|).outcome && gl.log == start + Chain(ts, |ts|).effects
  {
    var t := DrawTrace(meshes[i], position, rotation);
    DrawTracesAt(meshes, position, rotation, i);
    ghost var log := gl.log;
    gl.EmitAll(t.effects);
    ChainExtend(ts, i, start, log, gl.log, t.outcome);
    r := t.outcome;
  }

  // ----- StaticMesh -----

  /** A compound mesh fixed at a position and rotation. */
  datatype StaticMesh = StaticMesh(position: seq<real>, rotation: seq<real>, meshes: seq<Mesh>) {
    /** `StaticMesh.draw()`: the parts at the constructor's position and rotation. */
    method Draw(gl: Context) returns (r: Outcome)
      modifies gl
      ensures gl.log == old(gl.log) + PartsTrace(meshes, position, rotation).effects
      ensures r == PartsTrace(meshes, position, rotation).outcome
    {
      r := DrawParts(meshes, position, rotation, gl);
    }
  }

  // ----- DynamicMesh -----

  /** What `drawOffset(position, rotation)` hands to `CompoundMesh.draw`:
      the given position plus this part's (x, y) offset turned by
      `rotation.a` degrees (with z forced to 0), and the componentwise sum
      of this part's rotation and the given one. `cosDeg`/`sinDeg` are the
      cosine and sine of an angle in degrees. */
  function OffsetArguments(ownPosition: seq<real>, ownRotation: seq<real>, position: seq<real>,
                           rotation: seq<real>, cosDeg: real -> real, sinDeg: real -> real)
    : (r: Result<(seq<real>, seq<real>)>)
    ensures r.Err? <==> |ownPosition| < 2 || |rotation| < 4 || |position| != 3 || |ownRotation| != |rotation|
    ensures r.Err? ==> r.error == (if |ownPosition| < 2 || |rotation| < 4 then IndexOutOfBounds else IllegalArgument)
  {
    if |ownPosition| < 2 || |rotation| < 4 then Err(IndexOutOfBounds)
    else if |position| != 3 || |ownRotation| != |rotation| then Err(IllegalArgument)
    else
      var offset := Offset(ownPosition[0], ownPosition[1], rotation[3], cosDeg, sinDeg);
      Ok(([position[0] + offset[0], position[1] + offset[1], position[2] + offset[2]],
          seq(|rotation|, i requires 0 <= i < |rotation| => ownRotation[i] + rotation[i])))
  }

  /** The vector `Vector(x*cos(a) - y*sin(a), x*sin(a) + y*cos(a), 0.0)`. */
  function Offset(x: real, y: real, a: real, cosDeg: real -> real, sinDeg: real -> real): (r: seq<real>)
    ensures |r| == 3
  {
    [x * cosDeg(a) - y * sinDeg(a), x * sinDeg(a) + y * cosDeg(a), 0.0]
  }

  /** The two sums are `Vector.plus`: the position plus the turned offset,
      and this part's rotation plus the given one, both size-checked. */
  lemma OffsetArgumentsArePlus(ownPosition: seq<real>, ownRotation: seq<real>, position: seq<real>,
                               rotation: seq<real>, cosDeg: real -> real, sinDeg: real -> real)
    requires 2 <= |ownPosition| && 4 <= |rotation|
    ensures var r := OffsetArguments(ownPosition, ownRotation, position, rotation, cosDeg, sinDeg);
      var offset := Offset(ownPosition[0], ownPosition[1], rotation[3], cosDeg, sinDeg);
      var p, q := Vectors.Plus(position, offset), Vectors.Plus(ownRotation, rotation);
      (r.Ok? <==> p.Ok? && q.Ok?) && (r.Ok? ==> r.value == (p.value, q.value))
  {
    var r := OffsetArguments(ownPosition, ownRotation, position, rotation, cosDeg, sinDeg);
    var offset := Offset(ownPosition[0], ownPosition[1], rotation[3], cosDeg, sinDeg);
    var p, q := Vectors.Plus(position, offset), Vectors.Plus(ownRotation, rotation);
    if r.Ok? {
      assert r.value.0 == p.value;
      assert r.value.1 == q.value;
    }
  }

  /** The offset keeps the part's height: z is the given position's z. The
      rotation handed on adds the two rotations in every component, the axes
      included. */
  lemma OffsetComposes(ownPosition: seq<real>, ownRotation: seq<real>, position: seq<real>,
                       rotation: seq<real>, cosDeg: real -> real, sinDeg: real -> real)
    requires OffsetArguments(ownPosition, ownRotation, position, rotation, cosDeg, sinDeg).Ok?
    ensures var (p, q) := OffsetArguments(ownPosition, ownRotation, position, rotation, cosDeg, sinDeg).value;
      |p| == 3 && p[2] == position[2]
      && |q| == |rotation| && forall i :: 0 <= i < |q| ==> q[i] == ownRotation[i] + rotation[i]
  {
  }

  /** Turning the offset keeps its length in the plane: when
      cos^2 + sin^2 = 1 at the angle used, the drawn part sits at the same
      horizontal distance from `position` as (x, y) from the origin. */
  lemma OffsetKeepsDistance(ownPosition: seq<real>, ownRotation: seq<real>, position: seq<real>,
                            rotation: seq<real>, cosDeg: real -> real, sinDeg: real -> real)
    requires OffsetArguments(ownPosition, ownRotation, position, rotation, cosDeg, sinDeg).Ok?
    requires var a := rotation[3]; cosDeg(a) * cosDeg(a) + sinDeg(a) * sinDeg(a) == 1.0
    ensures var p := OffsetArguments(ownPosition, ownRotation, position, rotation, cosDeg, sinDeg).value.0;
      (p[0] - position[0]) * (p[0] - position[0]) + (p[1] - position[1]) * (p[1] - position[1])
      == ownPosition[0] * ownPosition[0] + ownPosition[1] * ownPosition[1]
  {
    var a := rotation[3];
    var p := OffsetArguments(ownPosition, ownRotation, position, rotation, cosDeg, sinDeg).value.0;
    assert p[0] - position[0] == ownPosition[0] * cosDeg(a) - ownPosition[1] * sinDeg(a);
    assert p[1] - position[1] == ownPosition[0] * sinDeg(a) + ownPosition[1] * cosDeg(a);
    Rotation(ownPosition[0], ownPosition[1], cosDeg(a), sinDeg(a));
  }

  /** A plane rotation by (c, s) with c^2 + s^2 = 1 keeps squared length. */
  lemma Rotation(x: real, y: real, c: real, s: real)
    requires c * c + s * s == 1.0
    ensures (x * c - y * s) * (x * c - y * s) + (x * s + y * c) * (x * s + y * c) == x * x + y * y
  {
    calc {
      (x * c - y * s) * (x * c - y * s) + (x * s + y * c) * (x * s + y * c);
      x * x * (c * c + s * s) + y * y * (c * c + s * s);
      x * x + y * y;
    }
  }

  /** An articulated part: a compound mesh whose position and rotation are
      public mutable fields. */
  class DynamicMesh {
    var position: seq<real>
    var rotation: seq<real>
    const meshes: seq<Mesh>

    constructor Unchecked(position: seq<real>, rotation: seq<real>, meshes: seq<Mesh>)
      ensures this.position == position && this.rotation == rotation && this.meshes == meshes
    {
      this.position := position;
      this.rotation := rotation;
      this.meshes := meshes;
    }

    /** The constructor with its `init` checks: exactly 3 position and
        exactly 4 rotation components. */
    static method Create(position: seq<real>, rotation: seq<real>, meshes: seq<Mesh>) returns (r: Result<DynamicMesh>)
      ensures r.Ok? <==> |position| == 3 && |rotation| == 4
      ensures r.Err? ==> r.error == IllegalArgument
      ensures r.Ok? ==> fresh(r.value) && r.value.position == position
                        && r.value.rotation == rotation && r.value.meshes == meshes
    {
      if |position| != 3 || |rotation| != 4 {
        return Err(IllegalArgument);
      }
      var d := new DynamicMesh.Unchecked(position, rotation, meshes);
      r := Ok(d);
    }

    /** `DynamicMesh.draw()`: the parts at the current field values. */
    method Draw(gl: Context) returns (r: Outcome)
      modifies gl
      ensures gl.log == old(gl.log) + PartsTrace(meshes, position, rotation).effects
      ensures r == PartsTrace(meshes, position, rotation).outcome
    {
      r := DrawParts(meshes, position, rotation, gl);
    }

    /** The trace of `drawOffset(position, rotation)` given the fields. */
    static function OffsetTrace(ownPosition: seq<real>, ownRotation: seq<real>, meshes: seq<Mesh>,
                                position: seq<real>, rotation: seq<real>,
                                cosDeg: real -> real, sinDeg: real -> real): Trace
    {
      match OffsetArguments(ownPosition, ownRotation, position, rotation, cosDeg, sinDeg)
      case Err(e) => Trace([], Fail(e))
      case Ok((p, q)) => PartsTrace(meshes, p, q)
    }

    /** `drawOffset(position, rotation)`: draws the parts at the offset
        position with the composed rotation; the fields are not changed. */
    method DrawOffset(position: seq<real>, rotation: seq<real>, cosDeg: real -> real, sinDeg: real -> real,
                      gl: Context) returns (r: Outcome)
      modifies gl
      ensures gl.log == old(gl.log) + OffsetTrace(this.position, this.rotation, meshes, position, rotation, cosDeg, sinDeg).effects
      ensures r == OffsetTrace(this.position, this.rotation, meshes, position, rotation, cosDeg, sinDeg).outcome
    {
      var args := OffsetArguments(this.position, this.rotation, position, rotation, cosDeg, sinDeg);
      if args.Err? {
        return Fail(args.error);
      }
      r := DrawParts(meshes, args.value.0, args.value.1, gl);
    }
  }

  // ----- SprattelMesh -----

  /** The fields of one articulated part at a moment. */
  datatype PartState = PartState(position: seq<real>, rotation: seq<real>, meshes: seq<Mesh>)

  /** The parts' fields, in array order. */
  function Snapshot(parts: seq<DynamicMesh>): (r: seq<PartState>)
    reads parts
    ensures |r| == |parts|
    ensures forall i :: 0 <= i < |parts| ==> r[i] == PartState(parts[i].position, parts[i].rotation, parts[i].meshes)
  {
    seq(|parts|, i reads parts requires 0 <= i < |parts| =>
      PartState(parts[i].position, parts[i].rotation, parts[i].meshes))
  }

  /** The trace of each part's `drawOffset(position, rotation)`, in order. */
  function OffsetTraces(parts: seq<PartState>, position: seq<real>, rotation: seq<real>,
                        cosDeg: real -> real, sinDeg: real -> real): (r: seq<Trace>)
    ensures |r| == |parts|
  {
    if |parts| == 0 then []
    else
      var last := parts[|parts| - 1];
      OffsetTraces(parts[..|parts| - 1], position, rotation, cosDeg, sinDeg)
      + [DynamicMesh.OffsetTrace(last.position, last.rotation, last.meshes, position, rotation, cosDeg, sinDeg)]
  }

  /** Entry `i` of `OffsetTraces` is part `i`'s trace. */
  lemma {:induction false} OffsetTracesAt(parts: seq<PartState>, position: seq<real>, rotation: seq<real>,
                                          cosDeg: real -> real, sinDeg: real -> real, i: nat)
    requires i < |parts|
    ensures OffsetTraces(parts, position, rotation, cosDeg, sinDeg)[i]
            == DynamicMesh.OffsetTrace(parts[i].position, parts[i].rotation, parts[i].meshes, position, rotation, cosDeg, sinDeg)
  {
    if i < |parts| - 1 {
      var init := parts[..|parts| - 1];
      OffsetTracesAt(init, position, rotation, cosDeg, sinDeg, i);
      assert init[i] == parts[i];
    }
  }

  /** What `SprattelMesh.draw()` does: `drawOffset(position, rotation)` on
      every part in array order, up to the first that throws. */
  function SprattelTrace(parts: seq<PartState>, position: seq<real>, rotation: seq<real>,
                         cosDeg: real -> real, sinDeg: real -> real): Trace
  {
    Chain(OffsetTraces(parts, position, rotation, cosDeg, sinDeg), |parts|)
  }

  /** All the loads of `SprattelMesh.load()` over the first `n` parts: each
      part's parts, part by part. */
  function SprattelLoads(parts: seq<DynamicMesh>, n: nat): seq<Effect>
    requires n <= |parts|
  {
    if n == 0 then [] else SprattelLoads(parts, n - 1) + ShaderLoads(parts[n - 1].meshes)
  }

  /** One step of `SprattelMesh.load()`: part `i` loaded. */
  method LoadPart(parts: seq<DynamicMesh>, i: nat, ghost start: seq<Effect>, gl: Context)
    requires i < |parts| && gl.log == start + SprattelLoads(parts, i)
    modifies gl
    ensures gl.log == start + SprattelLoads(parts, i + 1)
  {
    LoadParts(parts[i].meshes, gl);
    AppendAssociates(start, SprattelLoads(parts, i), ShaderLoads(parts[i].meshes));
  }

  /** The shader loads of a list of meshes, in order. */
  function ShaderLoads(meshes: seq<Mesh>): (r: seq<Effect>)
    ensures |r| == |meshes| && forall i :: 0 <= i < |meshes| ==> r[i] == ShaderLoad(meshes[i].shader)
  {
    if |meshes| == 0 then [] else [ShaderLoad(meshes[0].shader)] + ShaderLoads(meshes[1..])
  }

  /** An assembly of articulated parts drawn relative to a common position
      and rotation. */
  class SprattelMesh {
    var position: seq<real>
    var rotation: seq<real>
    const meshes: seq<DynamicMesh>

    constructor (position: seq<real>, rotation: seq<real>, meshes: seq<DynamicMesh>)
      ensures this.position == position && this.rotation == rotation && this.meshes == meshes
    {
      this.position := position;
      this.rotation := rotation;
      this.meshes := meshes;
    }

    /** `SprattelMesh.load()`: every part loaded, in array order. */
    method Load(gl: Context)
      modifies gl
      ensures gl.log == old(gl.log) + SprattelLoads(meshes, |meshes|)
    {
      for i := 0 to |meshes|
        invariant gl.log == old(gl.log) + SprattelLoads(meshes, i)
      {
        LoadPart(meshes, i, old(gl.log), gl);
      }
    }

    /** `SprattelMesh.draw()`: the parts are not changed by drawing. */
    method Draw(cosDeg: real -> real, sinDeg: real -> real, gl: Context) returns (r: Outcome)
      modifies gl
      ensures gl.log == old(gl.log) + SprattelTrace(Snapshot(meshes), position, rotation, cosDeg, sinDeg).effects
      ensures r == SprattelTrace(Snapshot(meshes), position, rotation, cosDeg, sinDeg).outcome
    {
      ghost var parts := Snapshot(meshes);
      ghost var ts := OffsetTraces(parts, position, rotation, cosDeg, sinDeg);
      assert gl.log == old(gl.log) + Chain(ts, 0).effects;
      for i := 0 to |meshes|
        invariant parts == Snapshot(meshes)
        invariant Chain(ts, i).outcome == Pass
        invariant gl.log == old(gl.log) + Chain(ts, i).effects
      {
        r := DrawPartOffset(meshes[i], parts, ts, i, position, rotation, cosDeg, sinDeg, old(gl.log), gl);
        if r.Fail? {
          return;
        }
      }
      r := Pass;
    }
  }

  /** One step of `SprattelMesh.draw()`: part `i` drawn at its offset. */
  method DrawPartOffset(part: DynamicMesh, ghost parts: seq<PartState>, ghost ts: seq<Trace>, i: nat,
                        position: seq<real>, rotation: seq<real>, cosDeg: real -> real, sinDeg: real -> real,
                        ghost start: seq<Effect>, gl: Context)
    returns (r: Outcome)
    requires ts == OffsetTraces(parts, position, rotation, cosDeg, sinDeg)
    requires i < |parts| && parts[i] == PartState(part.position, part.rotation, part.meshes)
    requires Chain(ts, i).outcome == Pass && gl.log == start + Chain(ts, i).effects
    modifies gl
    ensures r.Pass? ==> Chain(ts, i + 1).outcome == Pass && gl.log == start + Chain(ts, i + 1).effects
    ensures r.Fail? ==> r == Chain(ts, |ts|).outcome && gl.log == start + Chain(ts, |ts|).effects
  {
    OffsetTracesAt(parts, position, rotation, cosDeg, sinDeg, i);
    ghost var log := gl.log;
    r := part.DrawOffset(position, rotation, cosDeg, sinDeg, gl);
    ChainExtend(ts, i, start, log, gl.log, r);
  }
}
