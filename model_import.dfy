/** ModelImport.kt: the Wavefront OBJ parser `parseOBJ`, the flattening pass
    `createMesh` and the material scan of `getShaderFromMTL`. The text is
    given already read from the asset. `toDouble` is Kotlin's
    `String.toDouble`, passed in as a parser that answers `None` where
    Kotlin throws NumberFormatException. */
module ModelImport {
  import opened Exceptions
  import opened KotlinInts
  import opened KotlinText
  import Vectors
  import Meshes
  import opened Gl

  /** A face corner: its position (already scaled), texture coordinate and
      normal. */
  datatype Vertex = Vertex(pos: seq<real>, texCoord: seq<real>, normal: seq<real>)

  /** The four lists `parseOBJ` fills while it reads the lines. */
  datatype ObjLists = ObjLists(positions: seq<seq<real>>, texCoords: seq<seq<real>>,
                               normals: seq<seq<real>>, faces: seq<seq<Vertex>>)

  /** Positions and normals have 3 components, texture coordinates 2. */
  predicate WellFormedVertex(v: Vertex)
  {
    |v.pos| == 3 && |v.texCoord| == 2 && |v.normal| == 3
  }

  /** A face is a triangle of well-formed corners. */
  predicate WellFormedFace(face: seq<Vertex>)
  {
    |face| == 3 && forall j :: 0 <= j < 3 ==> WellFormedVertex(face[j])
  }

  /** Every position and normal read so far has 3 components, every
      texture coordinate 2. */
  predicate WellFormedEntries(l: ObjLists)
  {
    (forall i :: 0 <= i < |l.positions| ==> |l.positions[i]| == 3)
    && (forall i :: 0 <= i < |l.texCoords| ==> |l.texCoords[i]| == 2)
    && (forall i :: 0 <= i < |l.normals| ==> |l.normals[i]| == 3)
  }

  /** What every list holds after any prefix of an OBJ file. */
  predicate WellFormedLists(l: ObjLists)
  {
    WellFormedEntries(l) && forall i :: 0 <= i < |l.faces| ==> WellFormedFace(l.faces[i])
  }

  // ----- one line -----

  /** `words[1].toDouble(), …, words[count].toDouble()`, evaluated left to
      right: the first word that is missing (IndexOutOfBounds) or does not
      parse (NumberFormat) ends it. */
  function ParseComponents(words: seq<string>, count: nat, toDouble: string -> Option<real>): (r: Result<seq<real>>)
    requires |words| >= 1
    ensures r.Ok? <==> count < |words| && forall k :: 1 <= k <= count ==> toDouble(words[k]).Some?
    ensures r.Ok? ==> |r.value| == count && forall k :: 0 <= k < count ==> toDouble(words[k + 1]) == Some(r.value[k])
    ensures r.Err? ==> (r.error == IndexOutOfBounds
                        <==> forall k :: 1 <= k <= count && k < |words| ==> toDouble(words[k]).Some?)
    ensures r.Err? ==> r.error == IndexOutOfBounds || r.error == NumberFormat
  {
    if count == 0 then Ok([])
    else
      var prev :- ParseComponents(words, count - 1, toDouble);
      if count >= |words| then Err(IndexOutOfBounds)
      else match toDouble(words[count])
        case None => Err(NumberFormat)
        case Some(x) => Ok(prev + [x])
  }

  /** `list[word.toInt() - 1]`: a 1-based reference into what was parsed so
      far. */
  function Lookup(list: seq<seq<real>>, word: string): (r: Result<seq<real>>)
    ensures r.Ok? <==> ParseInt(word).Some? && 1 <= ParseInt(word).value <= |list|
    ensures r.Ok? ==> r.value == list[ParseInt(word).value - 1]
    ensures r.Err? ==> r.error == (if ParseInt(word).None? then NumberFormat else IndexOutOfBounds)
  {
    match ParseInt(word)
    case None => Err(NumberFormat)
    case Some(i) => if 1 <= i <= |list| then Ok(list[i - 1]) else Err(IndexOutOfBounds)
  }

  /** One vertex reference `p/t/n` of an `f` line. The texture slot is read
      first and may be empty (then (0, 0)); the position is scaled; the
      normal slot must be present. */
  function ResolveRef(lists: ObjLists, word: string, scale: real): (r: Result<Vertex>)
    ensures WellFormedEntries(lists) && r.Ok? ==> WellFormedVertex(r.value)
  {
    var indices := Split(word, '/');
    if |indices| < 2 then Err(IndexOutOfBounds)
    else
      var texCoord :- if indices[1] != "" then Lookup(lists.texCoords, indices[1]) else Ok([0.0, 0.0]);
      var pos :- Lookup(lists.positions, indices[0]);
      if |indices| < 3 then Err(IndexOutOfBounds)
      else
        var normal :- Lookup(lists.normals, indices[2]);
        Ok(Vertex(Vectors.Times(pos, scale), texCoord, normal))
  }

  /** The first `n` corners of an `f` line, `words[1]` to `words[n]`. */
  function Corners(lists: ObjLists, words: seq<string>, n: nat, scale: real): (r: Result<seq<Vertex>>)
    ensures r.Ok? ==> |r.value| == n
  {
    if n == 0 then Ok([])
    else
      var prev :- Corners(lists, words, n - 1, scale);
      if n >= |words| then Err(IndexOutOfBounds)
      else
        var v :- ResolveRef(lists, words[n], scale);
        Ok(prev + [v])
  }

  /** An `f` line: `Array(3) { … }` over the first three references. */
  function FaceOf(lists: ObjLists, words: seq<string>, scale: real): Result<seq<Vertex>>
  {
    Corners(lists, words, 3, scale)
  }

  /** One line of the OBJ text: split on single spaces and dispatched on the
      first word; other keywords leave the lists as they are. */
  function ObjStep(lists: ObjLists, line: string, scale: real, toDouble: string -> Option<real>): Result<ObjLists>
  {
    var words := Split(line, ' ');
    if words[0] == "v" then
      var c :- ParseComponents(words, 3, toDouble);
      Ok(lists.(positions := lists.positions + [c]))
    else if words[0] == "vt" then
      var c :- ParseComponents(words, 2, toDouble);
      Ok(lists.(texCoords := lists.texCoords + [c]))
    else if words[0] == "vn" then
      var c :- ParseComponents(words, 3, toDouble);
      Ok(lists.(normals := lists.normals + [c]))
    else if words[0] == "f" then
      var face :- FaceOf(lists, words, scale);
      Ok(lists.(faces := lists.faces + [face]))
    else Ok(lists)
  }

  /** The lists after the first `n` lines, or the exception of the first line
      that throws. */
  function ParseLines(lines: seq<string>, n: nat, scale: real, toDouble: string -> Option<real>): Result<ObjLists>
    requires n <= |lines|
  {
    if n == 0 then Ok(ObjLists([], [], [], []))
    else
      var prev :- ParseLines(lines, n - 1, scale, toDouble);
      ObjStep(prev, lines[n - 1], scale, toDouble)
  }

  // ----- properties of the parser -----

  /** Corners resolved from well-formed lists are well formed. */
  lemma {:induction false} CornersWellFormed(lists: ObjLists, words: seq<string>, n: nat, scale: real)
    requires WellFormedEntries(lists) && Corners(lists, words, n, scale).Ok?
    ensures forall j :: 0 <= j < n ==> WellFormedVertex(Corners(lists, words, n, scale).value[j])
  {
    if n > 0 {
      CornersWellFormed(lists, words, n - 1, scale);
      var prev := Corners(lists, words, n - 1, scale).value;
      var v := ResolveRef(lists, words[n], scale).value;
      assert Corners(lists, words, n, scale).value == prev + [v];
      forall j | 0 <= j < n
        ensures WellFormedVertex(Corners(lists, words, n, scale).value[j])
      {
        if j < n - 1 {
          assert Corners(lists, words, n, scale).value[j] == prev[j];
        }
      }
    }
  }

  /** Every line keeps the lists well formed and adds at most one face. */
  lemma ObjStepWellFormed(lists: ObjLists, line: string, scale: real, toDouble: string -> Option<real>)
    requires WellFormedLists(lists) && ObjStep(lists, line, scale, toDouble).Ok?
    ensures WellFormedLists(ObjStep(lists, line, scale, toDouble).value)
    ensures |ObjStep(lists, line, scale, toDouble).value.faces| <= |lists.faces| + 1
  {
    var words := Split(line, ' ');
    if words[0] == "f" {
      CornersWellFormed(lists, words, 3, scale);
    }
  }

  /** Whatever prefix of the file parses, the lists are well formed: every
      position and normal has 3 components, every texture coordinate 2,
      every face is a triangle; and there are no more faces than lines. */
  lemma {:induction false} ParseLinesWellFormed(lines: seq<string>, n: nat, scale: real, toDouble: string -> Option<real>)
    requires n <= |lines| && ParseLines(lines, n, scale, toDouble).Ok?
    ensures WellFormedLists(ParseLines(lines, n, scale, toDouble).value)
    ensures |ParseLines(lines, n, scale, toDouble).value.faces| <= n
  {
    if n > 0 {
      ParseLinesWellFormed(lines, n - 1, scale, toDouble);
      ObjStepWellFormed(ParseLines(lines, n - 1, scale, toDouble).value, lines[n - 1], scale, toDouble);
    }
  }

  /** Once a line throws, the later lines are not read. */
  lemma {:induction false} ParseLinesFailed(lines: seq<string>, i: nat, n: nat, scale: real, toDouble: string -> Option<real>)
    requires i < n <= |lines| && ParseLines(lines, i + 1, scale, toDouble).Err?
    ensures ParseLines(lines, n, scale, toDouble) == ParseLines(lines, i + 1, scale, toDouble)
  {
    if i + 1 < n {
      ParseLinesFailed(lines, i, n - 1, scale, toDouble);
      assert ParseLines(lines, n - 1, scale, toDouble).Err?;
    }
  }

  /** A line whose first word is not `v`, `vt`, `vn` or `f` (a comment, `o`,
      `s`, `usemtl`, an empty line) changes nothing. */
  lemma UnknownKeywordIgnored(lists: ObjLists, line: string, scale: real, toDouble: string -> Option<real>)
    requires var w := Split(line, ' ')[0]; w != "v" && w != "vt" && w != "vn" && w != "f"
    ensures ObjStep(lists, line, scale, toDouble) == Ok(lists)
  {
  }

  /** A reference is resolved against the lists read so far, 1-based: `0`,
      and any index past the current end (a forward reference), fails with
      IndexOutOfBounds; index `k` picks entry `k - 1`. */
  lemma ReferencesAreOneBased(lists: ObjLists, p: string, t: string, n: string, scale: real)
    requires '/' !in p && '/' !in t && '/' !in n
    ensures var r := ResolveRef(lists, p + "/" + t + "/" + n, scale);
      var okT := t == "" || (ParseInt(t).Some? && 1 <= ParseInt(t).value <= |lists.texCoords|);
      var okP := ParseInt(p).Some? && 1 <= ParseInt(p).value <= |lists.positions|;
      var okN := ParseInt(n).Some? && 1 <= ParseInt(n).value <= |lists.normals|;
      (r.Ok? <==> okT && okP && okN)
      && (r.Ok? ==> r.value == Vertex(Vectors.Times(lists.positions[ParseInt(p).value - 1], scale),
                                      if t == "" then [0.0, 0.0] else lists.texCoords[ParseInt(t).value - 1],
                                      lists.normals[ParseInt(n).value - 1]))
  {
    var w := p + "/" + t + "/" + n;
    SplitThree(p, t, n);
    var indices := Split(w, '/');
    assert indices[0] == p && indices[1] == t && indices[2] == n;
    var r := ResolveRef(lists, w, scale);
    if t != "" && Lookup(lists.texCoords, t).Err? {
      assert r.Err?;
    }
  }

  /** `p/t/n` splits into its three slots. */
  lemma SplitThree(p: string, t: string, n: string)
    requires '/' !in p && '/' !in t && '/' !in n
    ensures Split(p + "/" + t + "/" + n, '/') == [p, t, n]
  {
    var s := p + "/" + t + "/" + n;
    assert s == Join([p, t, n], '/') by {
      assert Join([p, t, n], '/') == p + ['/'] + Join([t, n], '/');
      assert Join([t, n], '/') == t + ['/'] + Join([n], '/');
    }
    JoinSplit([p, t, n], '/');
  }

  /** Only the first three references of an `f` line are read: a polygon
      with more corners is cut to its first triangle. */
  lemma ExtraReferencesDropped(lists: ObjLists, words: seq<string>, scale: real)
    requires 4 <= |words|
    ensures FaceOf(lists, words, scale) == FaceOf(lists, words[..4], scale)
  {
    CornersAgree(lists, words, words[..4], 3, scale);
  }

  /** Corners read only the words they index: two lines that agree on
      words `1` to `n` give the same corners. */
  lemma {:induction false} CornersAgree(lists: ObjLists, words: seq<string>, other: seq<string>, n: nat, scale: real)
    requires n < |words| && n < |other| && forall k :: 0 < k <= n ==> words[k] == other[k]
    ensures Corners(lists, words, n, scale) == Corners(lists, other, n, scale)
  {
    if n > 0 {
      CornersAgree(lists, words, other, n - 1, scale);
      assert ResolveRef(lists, words[n], scale) == ResolveRef(lists, other[n], scale);
    }
  }

  /** An `f` line with fewer than three references throws. */
  lemma {:induction false} FewerReferencesFail(lists: ObjLists, words: seq<string>, n: nat, scale: real)
    requires 0 < n && |words| <= n
    ensures Corners(lists, words, n, scale).Err?
  {
    if n > 1 && n - 1 >= |words| {
      FewerReferencesFail(lists, words, n - 1, scale);
    }
  }

  /** `scale` applies to positions only: texture coordinates and normals
      are taken as parsed, and the position is the unscaled one times
      `scale`. */
  lemma ScaleOnlyPositions(lists: ObjLists, word: string, scale: real)
    ensures ResolveRef(lists, word, scale).Ok? == ResolveRef(lists, word, 1.0).Ok?
    ensures ResolveRef(lists, word, scale).Ok? ==>
      var v, u := ResolveRef(lists, word, scale).value, ResolveRef(lists, word, 1.0).value;
      v.texCoord == u.texCoord && v.normal == u.normal && v.pos == Vectors.Times(u.pos, scale)
  {
    var r := ResolveRef(lists, word, scale);
    var r1 := ResolveRef(lists, word, 1.0);
    if r.Ok? {
      var pos := r1.value.pos;
      assert r.value.pos == Vectors.Times(pos, scale);
    }
  }

  // ----- parseOBJ -----

  /** `parseOBJ` on the text of the `.obj` asset: the lists are local
      variables appended to line by line, and the first line that throws
      ends the parse with its exception. Otherwise the faces are handed to
      `createMesh`. */
  method ParseObj(objText: string, scale: real, shader: Shader, toDouble: string -> Option<real>)
    returns (r: Result<Meshes.Mesh>)
    requires 9 * |Lines(objText)| < TwoTo31
    ensures var parsed := ParseLines(Lines(objText), |Lines(objText)|, scale, toDouble);
      (parsed.Err? ==> r == Err(parsed.error))
      && (parsed.Ok? ==> r.Ok? && Flattened(r.value, parsed.value.faces, shader))
  {
    var lines := Lines(objText);
    var lists := ReadObjLines(lines, scale, toDouble);
    if lists.Err? {
      return Err(lists.error);
    }
    ParseLinesWellFormed(lines, |lines|, scale, toDouble);
    r := CreateMesh(lists.value.faces, shader);
  }

  /** The line loop of `parseOBJ`: the four lists are locals appended to
      as the lines are read, and the first line that throws ends it. */
  method ReadObjLines(lines: seq<string>, scale: real, toDouble: string -> Option<real>) returns (r: Result<ObjLists>)
    ensures r == ParseLines(lines, |lines|, scale, toDouble)
  {
    var posList: seq<seq<real>> := [];
    var texCoordList: seq<seq<real>> := [];
    var normalList: seq<seq<real>> := [];
    var faceList: seq<seq<Vertex>> := [];
    for i := 0 to |lines|
      invariant ParseLines(lines, i, scale, toDouble) == Ok(ObjLists(posList, texCoordList, normalList, faceList))
    {
      var words := Split(lines[i], ' ');
      if words[0] == "v" {
        var c := ParseComponents(words, 3, toDouble);
        if c.Err? {
          assert ParseLines(lines, i + 1, scale, toDouble) == Err(c.error);
          ParseLinesFailed(lines, i, |lines|, scale, toDouble);
          return Err(c.error);
        }
        posList := posList + [c.value];
      } else if words[0] == "vt" {
        var c := ParseComponents(words, 2, toDouble);
        if c.Err? {
          assert ParseLines(lines, i + 1, scale, toDouble) == Err(c.error);
          ParseLinesFailed(lines, i, |lines|, scale, toDouble);
          return Err(c.error);
        }
        texCoordList := texCoordList + [c.value];
      } else if words[0] == "vn" {
        var c := ParseComponents(words, 3, toDouble);
        if c.Err? {
          assert ParseLines(lines, i + 1, scale, toDouble) == Err(c.error);
          ParseLinesFailed(lines, i, |lines|, scale, toDouble);
          return Err(c.error);
        }
        normalList := normalList + [c.value];
      } else if words[0] == "f" {
        var face := FaceOf(ObjLists(posList, texCoordList, normalList, faceList), words, scale);
        if face.Err? {
          assert ParseLines(lines, i + 1, scale, toDouble) == Err(face.error);
          ParseLinesFailed(lines, i, |lines|, scale, toDouble);
          return Err(face.error);
        }
        faceList := faceList + [face.value];
      }
    }
    r := Ok(ObjLists(posList, texCoordList, normalList, faceList));
  }

  // ----- createMesh -----

  /** The corners of all faces in order: face by face, and within a face
      corner by corner. */
  function Flatten(faces: seq<seq<Vertex>>): (r: seq<Vertex>)
    ensures (forall i :: 0 <= i < |faces| ==> WellFormedFace(faces[i])) ==>
      |r| == 3 * |faces| && forall k :: 0 <= k < |r| ==> WellFormedVertex(r[k])
  {
    if |faces| == 0 then [] else Flatten(faces[..|faces| - 1]) + faces[|faces| - 1]
  }

  /** Face order and corner order are kept: corner `j` of face `f` is
      vertex `3 * f + j`. */
  lemma {:induction false} FlattenAt(faces: seq<seq<Vertex>>, f: nat, j: nat)
    requires forall i :: 0 <= i < |faces| ==> WellFormedFace(faces[i])
    requires f < |faces| && j < 3
    ensures Flatten(faces)[3 * f + j] == faces[f][j]
  {
    var init := faces[..|faces| - 1];
    assert forall i :: 0 <= i < |init| ==> init[i] == faces[i];
    if f < |faces| - 1 {
      FlattenAt(init, f, j);
    }
  }

  /** The first `n` vertices of `vs` are in place: position and normal of
      vertex `k` in slots `3 * k .. 3 * k + 2`, its texture coordinate in
      slots `2 * k .. 2 * k + 1`, and `order[k] == k`. */
  predicate Holds(ps: seq<real>, ns: seq<real>, ts: seq<real>, order: seq<int>, vs: seq<Vertex>, n: nat)
  {
    n <= |vs| && 3 * n <= |ps| && 3 * n <= |ns| && 2 * n <= |ts| && n <= |order|
    && (forall k :: 0 <= k < n ==> WellFormedVertex(vs[k]))
    && (forall k, c :: 0 <= k < n && 0 <= c < 3 ==> ps[3 * k + c] == vs[k].pos[c])
    && (forall k, c :: 0 <= k < n && 0 <= c < 3 ==> ns[3 * k + c] == vs[k].normal[c])
    && (forall k, c :: 0 <= k < n && 0 <= c < 2 ==> ts[2 * k + c] == vs[k].texCoord[c])
    && (forall k :: 0 <= k < n ==> order[k] == k)
  }

  /** The mesh `createMesh` builds from `faces`: with `3 * |faces|`
      vertices, arrays of exactly the sizes that hold them, every vertex of
      `Flatten(faces)` in place, normals supplied, and `shader`. */
  predicate Flattened(m: Meshes.Mesh, faces: seq<seq<Vertex>>, shader: Shader)
  {
    var n := 3 * |faces|;
    m.normals.Some? && |m.vertexCoords| == 3 * n && |m.normals.value| == 3 * n
    && |m.texCoords| == 2 * n && |m.drawOrder| == n && m.shader == shader
    && Holds(m.vertexCoords, m.normals.value, m.texCoords, m.drawOrder, Flatten(faces), n)
  }

  /** Writing vertex `n` into its slots extends what holds by one vertex. */
  lemma HoldsStep(ps: seq<real>, ns: seq<real>, ts: seq<real>, order: seq<int>, vs: seq<Vertex>, n: nat)
    requires Holds(ps, ns, ts, order, vs, n)
    requires n < |vs| && WellFormedVertex(vs[n])
    requires 3 * n + 3 <= |ps| && 3 * n + 3 <= |ns| && 2 * n + 2 <= |ts| && n < |order|
    ensures var v := vs[n];
      Holds(ps[3 * n := v.pos[0]][3 * n + 1 := v.pos[1]][3 * n + 2 := v.pos[2]],
            ns[3 * n := v.normal[0]][3 * n + 1 := v.normal[1]][3 * n + 2 := v.normal[2]],
            ts[2 * n := v.texCoord[0]][2 * n + 1 := v.texCoord[1]],
            order[n := n], vs, n + 1)
  {
  }

  /** One pass of the inner loop: vertex `index` into its slots, and
      `drawOrder[index] = index`. */
  method WriteVertex(ps: array<real>, ns: array<real>, ts: array<real>, order: array<int>, index: nat, v: Vertex)
    requires ps != ns && ps != ts && ns != ts
    requires WellFormedVertex(v)
    requires 3 * index + 3 <= ps.Length && 3 * index + 3 <= ns.Length
    requires 2 * index + 2 <= ts.Length && index < order.Length
    modifies ps, ns, ts, order
    ensures ps[..] == old(ps[..])[3 * index := v.pos[0]][3 * index + 1 := v.pos[1]][3 * index + 2 := v.pos[2]]
    ensures ns[..] == old(ns[..])[3 * index := v.normal[0]][3 * index + 1 := v.normal[1]][3 * index + 2 := v.normal[2]]
    ensures ts[..] == old(ts[..])[2 * index := v.texCoord[0]][2 * index + 1 := v.texCoord[1]]
    ensures order[..] == old(order[..])[index := index]
  {
    ps[3 * index + 0] := v.pos[0];
    ps[3 * index + 1] := v.pos[1];
    ps[3 * index + 2] := v.pos[2];
    ns[3 * index + 0] := v.normal[0];
    ns[3 * index + 1] := v.normal[1];
    ns[3 * index + 2] := v.normal[2];
    ts[2 * index + 0] := v.texCoord[0];
    ts[2 * index + 1] := v.texCoord[1];
    order[index] := index;
  }

  /** `createMesh`: zeroed arrays sized for three vertices per face, filled
      face by face and corner by corner with a running index, then the
      `Mesh` constructor, whose checks always pass. The sizes are Kotlin
      `Int` products, so the face count is bounded to keep them in range. */
  method CreateMesh(faces: seq<seq<Vertex>>, shader: Shader) returns (r: Result<Meshes.Mesh>)
    requires forall i :: 0 <= i < |faces| ==> WellFormedFace(faces[i])
    requires 9 * |faces| < TwoTo31
    ensures r.Ok? && Flattened(r.value, faces, shader)
  {
    var vertexCount := |faces| * 3;
    var vertexPositions := new real[vertexCount * 3](_ => 0.0);
    var normals := new real[vertexCount * 3](_ => 0.0);
    var texCoords := new real[vertexCount * 2](_ => 0.0);
    var drawOrder := new int[vertexCount](_ => 0);
    ghost var vs := Flatten(faces);
    var index := 0;
    for f := 0 to |faces|
      invariant index == 3 * f
      invariant Holds(vertexPositions[..], normals[..], texCoords[..], drawOrder[..], vs, index)
    {
      index := WriteFace(vertexPositions, normals, texCoords, drawOrder, faces, vs, f, index);
    }
    assert vertexCount * 3 == 3 * vertexCount && vertexCount * 2 == 2 * vertexCount;
    r := Meshes.NewMesh(vertexPositions[..], Some(normals[..]), texCoords[..], drawOrder[..], shader);
  }

  /** The inner loop of `createMesh`: the corners of face `f`, in order,
      at the running index. */
  method WriteFace(ps: array<real>, ns: array<real>, ts: array<real>, order: array<int>,
                   faces: seq<seq<Vertex>>, ghost vs: seq<Vertex>, f: nat, index: nat) returns (next: nat)
    requires ps != ns && ps != ts && ns != ts
    requires forall i :: 0 <= i < |faces| ==> WellFormedFace(faces[i])
    requires vs == Flatten(faces) && f < |faces| && index == 3 * f
    requires ps.Length == 9 * |faces| && ns.Length == 9 * |faces|
    requires ts.Length == 6 * |faces| && order.Length == 3 * |faces|
    requires Holds(ps[..], ns[..], ts[..], order[..], vs, index)
    modifies ps, ns, ts, order
    ensures next == index + 3
    ensures Holds(ps[..], ns[..], ts[..], order[..], vs, next)
  {
    var face := faces[f];
    next := index;
    for j := 0 to |face|
      invariant next == 3 * f + j
      invariant Holds(ps[..], ns[..], ts[..], order[..], vs, next)
    {
      FlattenAt(faces, f, j);
      HoldsStep(ps[..], ns[..], ts[..], order[..], vs, next);
      WriteVertex(ps, ns, ts, order, next, face[j]);
      next := next + 1;
    }
  }

  /** The arrays are determined by the faces: two meshes built from the same
      faces with the same shader are equal. */
  lemma FlattenedIsUnique(m1: Meshes.Mesh, m2: Meshes.Mesh, faces: seq<seq<Vertex>>, shader: Shader)
    requires Flattened(m1, faces, shader) && Flattened(m2, faces, shader)
    ensures m1 == m2
  {
    var n := 3 * |faces|;
    var vs := Flatten(faces);
    forall s | 0 <= s < 3 * n
      ensures m1.vertexCoords[s] == m2.vertexCoords[s] && m1.normals.value[s] == m2.normals.value[s]
    {
      var k, c := s / 3, s % 3;
      assert s == 3 * k + c;
      assert m1.vertexCoords[3 * k + c] == vs[k].pos[c] == m2.vertexCoords[3 * k + c];
      assert m1.normals.value[3 * k + c] == vs[k].normal[c] == m2.normals.value[3 * k + c];
    }
    forall s | 0 <= s < 2 * n
      ensures m1.texCoords[s] == m2.texCoords[s]
    {
      var k, c := s / 2, s % 2;
      assert s == 2 * k + c;
      assert m1.texCoords[2 * k + c] == vs[k].texCoord[c] == m2.texCoords[2 * k + c];
    }
    assert m1.vertexCoords == m2.vertexCoords;
    assert m1.normals.value == m2.normals.value;
    assert m1.texCoords == m2.texCoords;
    assert m1.drawOrder == m2.drawOrder;
  }

  // ----- getShaderFromMTL -----

  /** What `getShaderFromMTL` hands to the `MTLShader` it creates: the
      diffuse colour `Kd` (red, green, blue, alpha) and the path of the
      diffuse texture, when `map_Kd` names one. */
  datatype Material = Material(kd: seq<real>, texturePath: Option<string>)

  /** The colour used when the material has no `Kd` line: opaque grey. */
  const DefaultKd: seq<real> := [0.5, 0.5, 0.5, 1.0]

  /** `map_Kd` with backslashes made slashes, under `textures/` unless it
      already is. */
  function TexturePath(mapKd: string): (r: string)
    ensures StartsWith(r, "textures/") && '\\' !in r
    ensures r == ReplaceChar(mapKd, '\\', '/') || r == "textures/" + ReplaceChar(mapKd, '\\', '/')
  {
    var path := ReplaceChar(mapKd, '\\', '/');
    ReplaceCharReplaces(mapKd, '\\', '/');
    if StartsWith(path, "textures/") then path else "textures/" + path
  }

  /** A path already under `textures/` without backslashes is kept, so
      the rewriting is idempotent. */
  lemma TexturePathIdempotent(mapKd: string)
    ensures TexturePath(TexturePath(mapKd)) == TexturePath(mapKd)
  {
    var p := TexturePath(mapKd);
    ReplaceCharAbsent(p, '\\', '/');
  }

  /** The first line of the material's block: the one after
      `newmtl <name>`, or line 0 when the material is not declared. */
  function WindowStart(lines: seq<string>, name: string): (r: nat)
    ensures r <= |lines|
    ensures r == 0 <==> "newmtl " + name !in lines
    ensures 0 < r ==> lines[r - 1] == "newmtl " + name
                      && forall j :: 0 <= j < r - 1 ==> lines[j] != "newmtl " + name
  {
    IndexOf(lines, "newmtl " + name) + 1
  }

  /** The end of the block from line `i`: the next line starting with
      `newmtl`, or the end of the text. */
  function WindowEnd(lines: seq<string>, i: nat): (r: nat)
    requires i <= |lines|
    ensures i <= r <= |lines|
    ensures r < |lines| ==> StartsWith(lines[r], "newmtl")
    ensures forall j :: i <= j < r ==> !StartsWith(lines[j], "newmtl")
    decreases |lines| - i
  {
    if i == |lines| || StartsWith(lines[i], "newmtl") then i else WindowEnd(lines, i + 1)
  }

  /** A `Kd` line of an MTL file. */
  predicate IsKd(line: string)
  {
    SplitWhitespace(line)[0] == "Kd"
  }

  /** A `map_Kd` line of an MTL file. */
  predicate IsMapKd(line: string)
  {
    SplitWhitespace(line)[0] == "map_Kd"
  }

  /** The colour of a `Kd` line that parses: its three components and
      alpha 1.0. */
  function KdOf(line: string, toDouble: string -> Option<real>): Result<seq<real>>
  {
    var c :- ParseComponents(SplitWhitespace(line), 3, toDouble);
    Ok(c + [1.0])
  }

  /** The `while` loop of `getShaderFromMTL` from line `i`, with `mapKd`
      and `kd` as set so far: every line of the block is split on runs of
      whitespace, `map_Kd` keeps its first argument, `Kd` its colour, and
      the first line that throws ends the scan. */
  function Scan(lines: seq<string>, i: nat, mapKd: Option<string>, kd: Option<seq<real>>,
                toDouble: string -> Option<real>): (r: Result<(Option<string>, Option<seq<real>>)>)
    requires i <= |lines|
    ensures r.Ok? && kd.Some? && |kd.value| == 4 && kd.value[3] == 1.0 && r.value.1.Some?
            ==> |r.value.1.value| == 4 && r.value.1.value[3] == 1.0
    ensures r.Ok? && r.value.1.Some? && kd.None? ==> |r.value.1.value| == 4 && r.value.1.value[3] == 1.0
    decreases |lines| - i
  {
    if i == |lines| || StartsWith(lines[i], "newmtl") then Ok((mapKd, kd))
    else
      var words := SplitWhitespace(lines[i]);
      if words[0] == "map_Kd" then
        if |words| < 2 then Err(IndexOutOfBounds) else Scan(lines, i + 1, Some(words[1]), kd, toDouble)
      else if words[0] == "Kd" then
        var c :- KdOf(lines[i], toDouble);
        Scan(lines, i + 1, mapKd, Some(c), toDouble)
      else Scan(lines, i + 1, mapKd, kd, toDouble)
  }

  /** The material named `name` in the MTL text: the block's last `map_Kd`
      and last `Kd`, with grey for a missing colour. */
  function MaterialIn(lines: seq<string>, name: string, toDouble: string -> Option<real>): (r: Result<Material>)
    ensures r.Ok? ==> |r.value.kd| == 4 && r.value.kd[3] == 1.0
  {
    var found :- Scan(lines, WindowStart(lines, name), None, None, toDouble);
    Ok(Material(if found.1.Some? then found.1.value else DefaultKd,
                if found.0.Some? then Some(TexturePath(found.0.value)) else None))
  }

  /** `getShaderFromMTL`: the `while` loop over the block with `mapKd` and
      `kd` as nullable locals, then the colour and the texture path. */
  method GetMaterial(mtlText: string, name: string, toDouble: string -> Option<real>) returns (r: Result<Material>)
    ensures r == MaterialIn(Lines(mtlText), name, toDouble)
  {
    var lines := Lines(mtlText);
    var i := IndexOf(lines, "newmtl " + name) + 1;
    assert i == WindowStart(lines, name);
    var found := ScanBlock(lines, i, toDouble);
    if found.Err? {
      return Err(found.error);
    }
    var (mapKd, kd) := found.value;
    var color := if kd.Some? then kd.value else DefaultKd;
    var texture := if mapKd.Some? then Some(TexturePath(mapKd.value)) else None;
    r := Ok(Material(color, texture));
  }

  /** The `while` loop of `getShaderFromMTL` from line `start`, with
      `mapKd` and `kd` as nullable locals. */
  method ScanBlock(lines: seq<string>, start: nat, toDouble: string -> Option<real>)
    returns (r: Result<(Option<string>, Option<seq<real>>)>)
    requires start <= |lines|
    ensures r == Scan(lines, start, None, None, toDouble)
  {
    var mapKd: Option<string> := None;
    var kd: Option<seq<real>> := None;
    var i := start;
    while i < |lines| && !StartsWith(lines[i], "newmtl")
      invariant i <= |lines|
      invariant Scan(lines, i, mapKd, kd, toDouble) == Scan(lines, start, None, None, toDouble)
      decreases |lines| - i
    {
      var next := ReadMaterialLine(lines, i, mapKd, kd, toDouble);
      if next.Err? {
        return Err(next.error);
      }
      mapKd, kd := next.value.0, next.value.1;
      i := i + 1;
    }
    r := Ok((mapKd, kd));
  }

  /** The `when` in the loop of `getShaderFromMTL` for line `i` of the
      block: the new `mapKd` and `kd`, or the exception the line throws. */
  method ReadMaterialLine(lines: seq<string>, i: nat, mapKd: Option<string>, kd: Option<seq<real>>,
                          toDouble: string -> Option<real>) returns (r: Result<(Option<string>, Option<seq<real>>)>)
    requires i < |lines| && !StartsWith(lines[i], "newmtl")
    ensures r.Err? ==> Scan(lines, i, mapKd, kd, toDouble) == Err(r.error)
    ensures r.Ok? ==> Scan(lines, i, mapKd, kd, toDouble) == Scan(lines, i + 1, r.value.0, r.value.1, toDouble)
  {
    var words := SplitWhitespace(lines[i]);
    if words[0] == "map_Kd" {
      if |words| < 2 {
        return Err(IndexOutOfBounds);
      }
      r := Ok((Some(words[1]), kd));
    } else if words[0] == "Kd" {
      var c := ParseComponents(words, 3, toDouble);
      if c.Err? {
        return Err(c.error);
      }
      r := Ok((mapKd, Some(c.value + [1.0])));
    } else {
      r := Ok((mapKd, kd));
    }
  }

  /** A block without a `Kd` line leaves the colour as it was. */
  lemma {:induction false} ScanWithoutKd(lines: seq<string>, i: nat, mapKd: Option<string>, kd: Option<seq<real>>,
                                         toDouble: string -> Option<real>)
    requires i <= |lines| && Scan(lines, i, mapKd, kd, toDouble).Ok?
    requires forall j :: i <= j < WindowEnd(lines, i) ==> !IsKd(lines[j])
    ensures Scan(lines, i, mapKd, kd, toDouble).value.1 == kd
    decreases |lines| - i
  {
    if i < |lines| && !StartsWith(lines[i], "newmtl") {
      var words := SplitWhitespace(lines[i]);
      if words[0] == "map_Kd" {
        ScanWithoutKd(lines, i + 1, Some(words[1]), kd, toDouble);
      } else {
        ScanWithoutKd(lines, i + 1, mapKd, kd, toDouble);
      }
    }
  }

  /** The last `Kd` line of the block decides the colour. */
  lemma {:induction false} ScanLastKd(lines: seq<string>, i: nat, j: nat, mapKd: Option<string>,
                                      kd: Option<seq<real>>, toDouble: string -> Option<real>)
    requires i <= |lines| && i <= j < WindowEnd(lines, i) && Scan(lines, i, mapKd, kd, toDouble).Ok?
    requires IsKd(lines[j]) && forall l :: j < l < WindowEnd(lines, i) ==> !IsKd(lines[l])
    ensures KdOf(lines[j], toDouble).Ok?
    ensures Scan(lines, i, mapKd, kd, toDouble).value.1 == Some(KdOf(lines[j], toDouble).value)
    decreases j - i
  {
    var words := SplitWhitespace(lines[i]);
    if i == j {
      ScanWithoutKd(lines, i + 1, mapKd, Some(KdOf(lines[j], toDouble).value), toDouble);
    } else if words[0] == "map_Kd" {
      ScanLastKd(lines, i + 1, j, Some(words[1]), kd, toDouble);
    } else if words[0] == "Kd" {
      ScanLastKd(lines, i + 1, j, mapKd, Some(KdOf(lines[i], toDouble).value), toDouble);
    } else {
      ScanLastKd(lines, i + 1, j, mapKd, kd, toDouble);
    }
  }

  /** A block without a `map_Kd` line leaves the texture as it was. */
  lemma {:induction false} ScanWithoutMapKd(lines: seq<string>, i: nat, mapKd: Option<string>, kd: Option<seq<real>>,
                                            toDouble: string -> Option<real>)
    requires i <= |lines| && Scan(lines, i, mapKd, kd, toDouble).Ok?
    requires forall j :: i <= j < WindowEnd(lines, i) ==> !IsMapKd(lines[j])
    ensures Scan(lines, i, mapKd, kd, toDouble).value.0 == mapKd
    decreases |lines| - i
  {
    if i < |lines| && !StartsWith(lines[i], "newmtl") {
      var words := SplitWhitespace(lines[i]);
      if words[0] == "Kd" {
        ScanWithoutMapKd(lines, i + 1, mapKd, Some(KdOf(lines[i], toDouble).value), toDouble);
      } else {
        ScanWithoutMapKd(lines, i + 1, mapKd, kd, toDouble);
      }
    }
  }

  /** The last `map_Kd` line of the block decides the texture: its first
      argument. */
  lemma {:induction false} ScanLastMapKd(lines: seq<string>, i: nat, j: nat, mapKd: Option<string>,
                                         kd: Option<seq<real>>, toDouble: string -> Option<real>)
    requires i <= |lines| && i <= j < WindowEnd(lines, i) && Scan(lines, i, mapKd, kd, toDouble).Ok?
    requires IsMapKd(lines[j]) && forall l :: j < l < WindowEnd(lines, i) ==> !IsMapKd(lines[l])
    ensures |SplitWhitespace(lines[j])| >= 2
    ensures Scan(lines, i, mapKd, kd, toDouble).value.0 == Some(SplitWhitespace(lines[j])[1])
    decreases j - i
  {
    var words := SplitWhitespace(lines[i]);
    if i == j {
      ScanWithoutMapKd(lines, i + 1, Some(words[1]), kd, toDouble);
    } else if words[0] == "map_Kd" {
      ScanLastMapKd(lines, i + 1, j, Some(words[1]), kd, toDouble);
    } else if words[0] == "Kd" {
      ScanLastMapKd(lines, i + 1, j, mapKd, Some(KdOf(lines[i], toDouble).value), toDouble);
    } else {
      ScanLastMapKd(lines, i + 1, j, mapKd, kd, toDouble);
    }
  }

  /** A material whose block has no `Kd` line is opaque grey. */
  lemma MaterialDefaultColor(lines: seq<string>, name: string, toDouble: string -> Option<real>)
    requires MaterialIn(lines, name, toDouble).Ok?
    requires var start := WindowStart(lines, name);
      forall j :: start <= j < WindowEnd(lines, start) ==> !IsKd(lines[j])
    ensures MaterialIn(lines, name, toDouble).value.kd == DefaultKd
  {
    ScanWithoutKd(lines, WindowStart(lines, name), None, None, toDouble);
  }

  /** The colour of a material is that of the last `Kd` line of its block. */
  lemma MaterialLastColor(lines: seq<string>, name: string, j: nat, toDouble: string -> Option<real>)
    requires MaterialIn(lines, name, toDouble).Ok?
    requires var start := WindowStart(lines, name);
      start <= j < WindowEnd(lines, start) && IsKd(lines[j])
      && forall l :: j < l < WindowEnd(lines, start) ==> !IsKd(lines[l])
    ensures KdOf(lines[j], toDouble).Ok?
    ensures MaterialIn(lines, name, toDouble).value.kd == KdOf(lines[j], toDouble).value
  {
    ScanLastKd(lines, WindowStart(lines, name), j, None, None, toDouble);
  }

  /** A material whose block has no `map_Kd` line has no texture. */
  lemma MaterialWithoutTexture(lines: seq<string>, name: string, toDouble: string -> Option<real>)
    requires MaterialIn(lines, name, toDouble).Ok?
    requires var start := WindowStart(lines, name);
      forall j :: start <= j < WindowEnd(lines, start) ==> !IsMapKd(lines[j])
    ensures MaterialIn(lines, name, toDouble).value.texturePath == None
  {
    ScanWithoutMapKd(lines, WindowStart(lines, name), None, None, toDouble);
  }

  /** The texture of a material is the rewritten first argument of the last
      `map_Kd` line of its block. */
  lemma MaterialLastTexture(lines: seq<string>, name: string, j: nat, toDouble: string -> Option<real>)
    requires MaterialIn(lines, name, toDouble).Ok?
    requires var start := WindowStart(lines, name);
      start <= j < WindowEnd(lines, start) && IsMapKd(lines[j])
      && forall l :: j < l < WindowEnd(lines, start) ==> !IsMapKd(lines[l])
    ensures |SplitWhitespace(lines[j])| >= 2
    ensures MaterialIn(lines, name, toDouble).value.texturePath == Some(TexturePath(SplitWhitespace(lines[j])[1]))
  {
    ScanLastMapKd(lines, WindowStart(lines, name), j, None, None, toDouble);
  }
}
