# Hengine core, modelled in Dafny

Hengine is a small OpenGL ES game engine for Android, written in Kotlin, and
LurigLogistik is the truck game built on it. This project models the
engine's core and the game's truck, and proves properties of the model:

- `Vector` arithmetic: `plus`, `minus`, `times`, `div`, `dot`, `length`,
  `normalize`, `coerceLengthWithin`, `deflect`, the in-place `plusAssign` and
  `minusAssign`, and the x/y/z/w and r/g/b/a accessors (`vector.dfy`);
- the flat-list `Matrix`: its `init` checks, the `i/n + j%n` element index,
  row and column ranges, `times` and `toVector` (`matrix.dfy`, with Kotlin's
  32-bit `Int` in `kotlin_int.dfy`);
- the `Mesh` family: the `init` checks, `load` and `draw` with their
  attribute enable/disable pairs, `CompoundMesh`, `StaticMesh`,
  `DynamicMesh` and `SprattelMesh` (`mesh.dfy`);
- `.obj`/`.mtl` import: line parsing, face corners, `createMesh`'s
  flattening and the material lookup (`model_import.dfy`, with the Kotlin
  string conversions in `kotlin_text.dfy`);
- the UI: `UIRectangle` placement, hit testing and pointer tracking, `UIButton`,
  the `UserInterface` touch dispatch and `UITouchStick` (`ui_rectangle.dfy`,
  `user_interface.dfy`, with `MotionEvent` in `motion_event.dfy`);
- `GameRenderer`: the drawable lists, the shader cache, the camera and the
  per-frame pass (`game_renderer.dfy`);
- the game's `Truck`: its clamped speed and wheel-angle setters and
  `SprattelIndex.fromInt` (`truck.dfy`).

Doubles are `real`. A square root is a parameter `sqrt` constrained by
`RealMath.IsSqrt`. Kotlin exceptions are `Result`/`Outcome` values
(`exceptions.dfy`). OpenGL calls, `Shader`/`Drawable` calls, `requestRender`
and the game's lambdas are not executed. Each becomes an `Effect` appended to
the log of a `Gl.Context` (`gl.dfy`), so contracts state which calls the
engine issues and in what order.

Where the code does something other than what its own doc comments and
member names describe, the model follows the code. A lemma then
exhibits the difference:

- `coerceLengthWithin` scales a long vector by `length/max`, not `max/length`
  (`Vectors.CoerceAboveMaxOvershoots`);
- `deflect` removes `|p|` times the component of an opposing vector along a
  prohibitor `p`, so the opposition is multiplied by `1 - |p|` and vanishes
  only for a unit prohibitor (`Vectors.DeflectScalesOpposition`); with
  `|p| = 2` the opposing vector is reversed
  (`Vectors.DeflectNonUnitCounterexample`);
- the matrix index `i/n + j%n` makes distinct elements share a slot
  (`Matrices.FlatInjectiveIff`, `Matrices.ProductTwoByTwo`);
- the `init` size check wraps around in 32 bits (`Matrices.InitCheckOverflow`);
- `toMatrix` passes the vector's `x` component, not the vector
  (`Matrices.ToMatrix`);
- the touch stick's dead zone compares against the stick radius
  (`UserInterfaces.DeadZoneWiderThanRadiusFlipsSign`);
- `setWheelAngle` turns the handle by the unclamped argument
  (`Trucks.HandleDisagreesBeyondLimit`);
- a released spring-back stick reports `xFunction` for both components
  (`UserInterfaces.SpringBackRecentres`);
- `onDrawFrame` (GameRenderer.kt:109-140) never recomputes the view matrix:
  `updateView` (GameRenderer.kt:69-74), whose comment says it updates the
  view, is called only from `onSurfaceCreated` (GameRenderer.kt:100), so a
  camera moved after the surface was created is drawn with the old view
  (`Renderer.GameRenderer.OnDrawFrame` keeps `view`). `onSurfaceChanged`
  sets the viewport and the projection only;
- a UI whose `draw()` throws leaves the depth test disabled: the exception
  leaves `onDrawFrame` before `glEnable(GL_DEPTH_TEST)`
  (`Renderer.UIFailureLeavesDepthTestOff`, `Renderer.IncompleteUIFailsFrame`).

## Model

| member | source | states |
|---|---|---|
| Vectors.Zip | Hengine/src/main/java/com/axehen/hengine/Vector.kt:36 | the result is as long as the shorter operand and holds `f` of each pair |
| Vectors.MapComponents | Hengine/src/main/java/com/axehen/hengine/Vector.kt:32-33 | same length, `f` applied to every component |
| Vectors.Plus | Hengine/src/main/java/com/axehen/hengine/Vector.kt:34-37 | IllegalArgument exactly when the sizes differ; otherwise the componentwise sum |
| Vectors.Minus | Hengine/src/main/java/com/axehen/hengine/Vector.kt:38-41 | IllegalArgument exactly when the sizes differ; otherwise the componentwise difference |
| Vectors.Times | Hengine/src/main/java/com/axehen/hengine/Vector.kt:33 | every component multiplied by the factor, length kept |
| Vectors.Div | Hengine/src/main/java/com/axehen/hengine/Vector.kt:32 | every result component times the factor gives back the original |
| Vectors.Negate | Hengine/src/main/java/com/axehen/hengine/Vector.kt:42-44 | each component added to its negation is zero |
| Vectors.Dot | Hengine/src/main/java/com/axehen/hengine/Vector.kt:53-56 | IllegalArgument exactly when the sizes differ; otherwise the sum of products, which is symmetric |
| Vectors.Length | Hengine/src/main/java/com/axehen/hengine/Vector.kt:13 | never negative |
| Vectors.Normalize | Hengine/src/main/java/com/axehen/hengine/Vector.kt:12 | a non-zero vector keeps its size |
| Vectors.CoerceLengthWithin | Hengine/src/main/java/com/axehen/hengine/Vector.kt:18-29 | IllegalArgument exactly for `max < 0` or `max < min`; Arithmetic exactly for a zero-length vector below `min`; a vector shorter than `min` is scaled by `min/length`, one longer than `max` by `length/max`; a length already in range returns the vector unchanged |
| Vectors.Deflect | Hengine/src/main/java/com/axehen/hengine/Vector.kt:58-61 | IllegalArgument exactly on differing sizes; a vector not opposing the prohibitor is returned unchanged |
| Vectors.LengthSquared | Hengine/src/main/java/com/axehen/hengine/Vector.kt:13 | the length squares to the sum of squares; the length is zero exactly when that sum is |
| Vectors.SumOfSquaresNonNegative | Hengine/src/main/java/com/axehen/hengine/Vector.kt:13 | the sum under the square root is never negative |
| Vectors.SumOfProductsSymmetric | Hengine/src/main/java/com/axehen/hengine/Vector.kt:55 | `a dot b == b dot a` |
| Vectors.SumOfProductsSelf | Hengine/src/main/java/com/axehen/hengine/Vector.kt:55 | `v dot v` is the squared length |
| Vectors.ZeroLengthAnnihilates | Hengine/src/main/java/com/axehen/hengine/Vector.kt:55 | a zero-length vector's dot product with anything is zero |
| Vectors.SumOfSquaresScaled | Hengine/src/main/java/com/axehen/hengine/Vector.kt:13 | scaling by `k` scales the squared length by `k*k` |
| Vectors.SumOfProductsScaled | Hengine/src/main/java/com/axehen/hengine/Vector.kt:55 | scaling one operand by `k` scales the dot product by `k` |
| Vectors.SumOfProductsDifference | Hengine/src/main/java/com/axehen/hengine/Vector.kt:55 | the dot product distributes over a difference |
| Vectors.PlusMinusRoundTrip | Hengine/src/main/java/com/axehen/hengine/Vector.kt:34-41 | `(a + b) - b == a` for equal sizes |
| Vectors.NegateInverse | Hengine/src/main/java/com/axehen/hengine/Vector.kt:42-44 | negation is an involution and `v + (-v)` is the zero vector |
| Vectors.DivTimesRoundTrip | Hengine/src/main/java/com/axehen/hengine/Vector.kt:32-33 | `(v * k) / k == v` for non-zero `k` |
| Vectors.LengthOfScaled | Hengine/src/main/java/com/axehen/hengine/Vector.kt:13 | scaling by `k >= 0` scales the length by `k` |
| Vectors.CoerceZeroMaxBelowMin | Hengine/src/main/java/com/axehen/hengine/Vector.kt:19-20 | a zero `max` below a positive `min` throws IllegalArgument for every vector, before any division |
| Vectors.CoerceBelowMinReachesMin | Hengine/src/main/java/com/axehen/hengine/Vector.kt:21-23 | a non-zero vector shorter than `min` comes back with length exactly `min` |
| Vectors.CoerceAboveMaxOvershoots | Hengine/src/main/java/com/axehen/hengine/Vector.kt:24-25 | a vector longer than `max` comes back with length `length*length/max`, still above `max` |
| Vectors.DeflectNonUnitCounterexample | Hengine/src/main/java/com/axehen/hengine/Vector.kt:58-61 | deflecting `[-1]` by `[2]` gives `[1]`, which still has a non-zero dot product with the prohibitor |
| Vectors.DeflectedProduct | Hengine/src/main/java/com/axehen/hengine/Vector.kt:59 | removing `p * along` from `v` lowers `v dot p` by `along * (p dot p)` |
| Vectors.DeflectOpposing | Hengine/src/main/java/com/axehen/hengine/Vector.kt:59 | an opposing vector is `v - p * (v dot normalize(p))` |
| Vectors.DeflectScalesOpposition | Hengine/src/main/java/com/axehen/hengine/Vector.kt:58-61 | for every opposing vector, deflecting multiplies its dot product with the prohibitor `p` by `1 - length(p)` |
| Vectors.DeflectUnitOrthogonal | Hengine/src/main/java/com/axehen/hengine/Vector.kt:58-61 | deflecting an opposing vector by a unit prohibitor leaves it orthogonal to the prohibitor |
| Vectors.OppositionArithmetic | Hengine/src/main/java/com/axehen/hengine/Vector.kt:59 | `v dot p` minus `(v dot normalize(p)) * (p dot p)` is `(1 - length(p)) * (v dot p)` |
| Vectors.AlongNormalized | Hengine/src/main/java/com/axehen/hengine/Vector.kt:12-13 | the component along `normalize(p)` times `length(p)` is `v dot p` |
| Vectors.NormalizeScales | Hengine/src/main/java/com/axehen/hengine/Vector.kt:12 | each normalised component times the length is the original component |
| Vectors.NormalizeIsScaled | Hengine/src/main/java/com/axehen/hengine/Vector.kt:12 | normalising is scaling by the reciprocal of the length |
| Vectors.DivIsTimesReciprocal | Hengine/src/main/java/com/axehen/hengine/Vector.kt:32-33 | `v / k == v * (1/k)` |
| Vectors.NormalizeUnitLength | Hengine/src/main/java/com/axehen/hengine/Vector.kt:12-13 | a normalised non-zero vector has length one |
| Vectors.Vector.Get | Hengine/src/main/java/com/axehen/hengine/Vector.kt:66-89 | the accessor reads its slot (x and r share slot 0, and so on), or throws IndexOutOfBounds when the list is too short |
| Vectors.Vector.Set | Hengine/src/main/java/com/axehen/hengine/Vector.kt:66-89 | the setter writes only its slot and never changes the size; a short list throws and is unchanged |
| Vectors.Vector.PlusAssign | Hengine/src/main/java/com/axehen/hengine/Vector.kt:45-48 | differing sizes throw and change nothing; otherwise the list becomes `old + other` and `other` is untouched unless it is the same vector |
| Vectors.Vector.constructor | Hengine/src/main/java/com/axehen/hengine/Vector.kt:7 | a vector wraps the list it is given |
| Vectors.Vector.MinusAssign | Hengine/src/main/java/com/axehen/hengine/Vector.kt:49-52 | as `PlusAssign`, with `old - other` |
| KotlinInts.Wrap32 | Hengine/src/main/java/com/axehen/hengine/Matrix.kt:16 | the 32-bit result is congruent to the exact one modulo 2^32 and equal to it when it fits |
| KotlinInts.KDiv | Hengine/src/main/java/com/axehen/hengine/Matrix.kt:20 | Kotlin's `/` for a positive divisor; a non-negative dividend gives a quotient between 0 and the dividend |
| KotlinInts.KRem | Hengine/src/main/java/com/axehen/hengine/Matrix.kt:20 | Kotlin's `%`: the remainder takes the sign of the dividend and is smaller than the divisor |
| KotlinInts.KDivKRem | Hengine/src/main/java/com/axehen/hengine/Matrix.kt:20 | `a == b * (a / b) + a % b` |
| KotlinInts.KDivNonNegative | Hengine/src/main/java/com/axehen/hengine/Matrix.kt:20 | on non-negative operands Kotlin's and Dafny's division agree |
| KotlinInts.KDivByOne | Hengine/src/main/java/com/axehen/hengine/Matrix.kt:20 | dividing by one returns the dividend with no remainder |
| KotlinInts.KDivTruncates | Hengine/src/main/java/com/axehen/hengine/Matrix.kt:20 | Kotlin's `-1 / 2` is 0 with remainder -1, where Dafny's gives -1 with remainder 1 |
| Matrices.InitCheck | Hengine/src/main/java/com/axehen/hengine/Matrix.kt:13-17 | passes exactly for positive `m`, `n` and a list of `Wrap32(m*n)` elements; otherwise IllegalArgument |
| Matrices.InitCheckExact | Hengine/src/main/java/com/axehen/hengine/Matrix.kt:16 | without overflow the size test in `init` accepts exactly `m*n` elements |
| Matrices.InitCheckOverflow | Hengine/src/main/java/com/axehen/hengine/Matrix.kt:16 | a 65536-by-65536 matrix with an empty list passes the size test in `init` |
| Matrices.FlatInBounds | Hengine/src/main/java/com/axehen/hengine/Matrix.kt:20 | inside the matrix the flat index stays within the list |
| Matrices.FlatInjectiveIff | Hengine/src/main/java/com/axehen/hengine/Matrix.kt:20 | distinct elements get distinct slots exactly for a single row or a single column; otherwise (0,0) and (1,0) share slot 0 |
| Matrices.MatrixValue.Get | Hengine/src/main/java/com/axehen/hengine/Matrix.kt:19 | the list element, or IndexOutOfBounds exactly outside the list |
| Matrices.MatrixValue.GetAt | Hengine/src/main/java/com/axehen/hengine/Matrix.kt:20 | the element at `i/n + j%n`; always succeeds inside a sized matrix |
| Matrices.MatrixValue.RowRange | Hengine/src/main/java/com/axehen/hengine/Matrix.kt:22 | a failure is IndexOutOfBounds |
| Matrices.MatrixValue.ColumnRange | Hengine/src/main/java/com/axehen/hengine/Matrix.kt:23 | a failure is IndexOutOfBounds |
| Matrices.MatrixValue.ToVector | Hengine/src/main/java/com/axehen/hengine/Matrix.kt:46-50 | TypeCast exactly when both dimensions exceed one |
| Matrices.RowSize | Hengine/src/main/java/com/axehen/hengine/Matrix.kt:16 | a sized single row holds `n` elements |
| Matrices.ColumnSize | Hengine/src/main/java/com/axehen/hengine/Matrix.kt:16 | a sized single column holds `m` elements |
| Matrices.RowInOrder | Hengine/src/main/java/com/axehen/hengine/Matrix.kt:22 | reading a single row visits the list in order |
| Matrices.RowVector | Hengine/src/main/java/com/axehen/hengine/Matrix.kt:48 | a single row reads back as its element list |
| Matrices.ColumnInOrder | Hengine/src/main/java/com/axehen/hengine/Matrix.kt:23 | reading a single column visits the list in order |
| Matrices.ColumnVector | Hengine/src/main/java/com/axehen/hengine/Matrix.kt:49 | a single column reads back as its element list |
| Matrices.ToVectorReturnsElements | Hengine/src/main/java/com/axehen/hengine/Matrix.kt:46-50 | `toVector` of a sized single row or column is its element list |
| Matrices.RowRangeReads | Hengine/src/main/java/com/axehen/hengine/Matrix.kt:22 | a row range succeeds exactly when every flat index it visits is in the list, and then lists those elements in order |
| Matrices.ColumnRangeReads | Hengine/src/main/java/com/axehen/hengine/Matrix.kt:23 | a column range succeeds exactly when every flat index it visits is in the list, and then lists those elements in order |
| Matrices.RowReadable | Hengine/src/main/java/com/axehen/hengine/Matrix.kt:22 | every full row of a sized matrix can be read and has `n` elements |
| Matrices.RowElements | Hengine/src/main/java/com/axehen/hengine/Matrix.kt:22 | row `i` lists the elements at its flat indices |
| Matrices.ColumnReadable | Hengine/src/main/java/com/axehen/hengine/Matrix.kt:23 | every full column of a sized matrix can be read and has `m` elements |
| Matrices.ColumnElements | Hengine/src/main/java/com/axehen/hengine/Matrix.kt:23 | column `j` lists the elements at its flat indices |
| Matrices.Zeros | Hengine/src/main/java/com/axehen/hengine/Matrix.kt:31 | `k` zeros |
| Matrices.RowWritesNext | Hengine/src/main/java/com/axehen/hengine/Matrix.kt:34-35 | one inner-loop step writes entry (i, j) at its flat index |
| Matrices.Product | Hengine/src/main/java/com/axehen/hengine/Matrix.kt:31-37 | the result list has `m * other.n` elements |
| Matrices.RowWritesOutside | Hengine/src/main/java/com/axehen/hengine/Matrix.kt:34-35 | with a collision-free index, writing row `i` leaves every other slot alone |
| Matrices.RowWritesStores | Hengine/src/main/java/com/axehen/hengine/Matrix.kt:34-35 | with a collision-free index, writing row `i` stores each of its entries |
| Matrices.RowsDoneStores | Hengine/src/main/java/com/axehen/hengine/Matrix.kt:33-35 | with a collision-free index, the finished rows hold their entries |
| Matrices.RowsDoneKeeps | Hengine/src/main/java/com/axehen/hengine/Matrix.kt:33-35 | with a collision-free index, a later row does not overwrite an earlier one |
| Matrices.ProductCorrectWhenInjective | Hengine/src/main/java/com/axehen/hengine/Matrix.kt:28-38 | for a single-row or single-column result, every (i, j) of `times` is row `i` of `a` dotted with column `j` of `b` |
| Matrices.ProductTwoByTwo | Hengine/src/main/java/com/axehen/hengine/Matrix.kt:28-38 | a 2-by-2 product leaves row 1's entries in slots 0 and 1 and zeros in slots 2 and 3 |
| Matrices.Matrix.constructor | Hengine/src/main/java/com/axehen/hengine/Matrix.kt:9-17 | a matrix that passed the `init` checks holds its dimensions and elements and is well formed |
| Matrices.Matrix.Create | Hengine/src/main/java/com/axehen/hengine/Matrix.kt:9-17 | a new matrix exactly when `InitCheck` passes; otherwise IllegalArgument |
| Matrices.Matrix.Set | Hengine/src/main/java/com/axehen/hengine/Matrix.kt:25 | writes one slot, or throws IndexOutOfBounds and changes nothing |
| Matrices.Matrix.SetAt | Hengine/src/main/java/com/axehen/hengine/Matrix.kt:26 | writes the slot at `i/n + j%n`, or throws IndexOutOfBounds and changes nothing |
| Matrices.Matrix.FillRow | Hengine/src/main/java/com/axehen/hengine/Matrix.kt:34-35 | the inner loop leaves the result list as `RowWrites` for the whole row |
| Matrices.Matrix.Times | Hengine/src/main/java/com/axehen/hengine/Matrix.kt:28-38 | IllegalArgument exactly when `n != other.m`; otherwise a new sized `m`-by-`other.n` matrix holding `Product` |
| Matrices.ToMatrix | Hengine/src/main/java/com/axehen/hengine/Matrix.kt:44 | an empty vector throws IndexOutOfBounds, a longer one fails the size check, and only a one-element vector gives a 1-by-1 matrix of that element |
| Meshes.NewMesh | Hengine/src/main/java/com/axehen/hengine/Mesh.kt:13-21 | the primary constructor succeeds exactly when the vertex coordinates, any supplied normals and the draw order come in multiples of 3; otherwise IllegalArgument; a new mesh keeps every array it was given |
| Meshes.NewMeshWithoutNormals | Hengine/src/main/java/com/axehen/hengine/Mesh.kt:21 | the secondary constructor checks only vertices and draw order and gives a mesh without normals |
| Meshes.TexCoordsUnchecked | Hengine/src/main/java/com/axehen/hengine/Mesh.kt:77-81 | the texture coordinates never decide whether construction succeeds |
| Meshes.AttributesOf | Hengine/src/main/java/com/axehen/hengine/Mesh.kt:101-144 | `draw` binds positions and texture coordinates always, and normals exactly when the mesh has them |
| Meshes.DrawTrace | Hengine/src/main/java/com/axehen/hengine/Mesh.kt:89-153 | `draw` throws IndexOutOfBounds exactly for a position shorter than 3 or a rotation shorter than 4, after binding the textures and before anything else |
| Meshes.DrawPairsAttributes | Hengine/src/main/java/com/axehen/hengine/Mesh.kt:101-152 | before the draw call `draw` only enables arrays and after it only disables them, disabling exactly the arrays it enabled, the normal array among them exactly when the mesh has normals |
| Meshes.LoadParts | Hengine/src/main/java/com/axehen/hengine/Mesh.kt:161-163 | `CompoundMesh.load` loads every part's shader once, in list order |
| Meshes.ShaderLoads | Hengine/src/main/java/com/axehen/hengine/Mesh.kt:84-86 | one shader load per mesh, in order |
| Meshes.DrawTraces | Hengine/src/main/java/com/axehen/hengine/Mesh.kt:165-167 | one draw trace per part |
| Meshes.DrawTracesAt | Hengine/src/main/java/com/axehen/hengine/Mesh.kt:165-167 | entry `i` of the per-part traces is part `i`'s `draw` |
| Meshes.PartsTraceAllDrawn | Hengine/src/main/java/com/axehen/hengine/Mesh.kt:165-167 | with long enough vectors every part is drawn once, in order, and nothing throws |
| Meshes.PartsTraceStopsAtFirst | Hengine/src/main/java/com/axehen/hengine/Mesh.kt:165-167 | with a vector too short the first part throws after binding its textures, and no later part is visited |
| Meshes.DrawParts | Hengine/src/main/java/com/axehen/hengine/Mesh.kt:165-167 | `CompoundMesh.draw` issues exactly the chained part traces and ends with their outcome |
| Meshes.DrawPart | Hengine/src/main/java/com/axehen/hengine/Mesh.kt:166 | one loop step draws part `i` and extends the chain, or ends it with the chain's exception |
| Meshes.StaticMesh.Draw | Hengine/src/main/java/com/axehen/hengine/Mesh.kt:170-174 | `StaticMesh.draw()` draws its parts at the constructor's position and rotation |
| Meshes.OffsetArguments | Hengine/src/main/java/com/axehen/hengine/Mesh.kt:190-192 | `drawOffset` throws IndexOutOfBounds for a short own position or rotation, IllegalArgument for mismatched sizes in either `plus`, and otherwise hands on the turned position and summed rotation |
| Meshes.Offset | Hengine/src/main/java/com/axehen/hengine/Mesh.kt:191 | the turned offset has three components |
| Meshes.OffsetArgumentsArePlus | Hengine/src/main/java/com/axehen/hengine/Mesh.kt:191 | the position and rotation handed on are exactly the two `Vector.plus` results, and fail exactly when either does |
| Meshes.OffsetComposes | Hengine/src/main/java/com/axehen/hengine/Mesh.kt:191 | the part keeps the given height and its rotation is the componentwise sum of both rotations |
| Meshes.OffsetKeepsDistance | Hengine/src/main/java/com/axehen/hengine/Mesh.kt:191 | with a true cosine and sine the part sits at the same horizontal distance from the given position as its own offset from the origin |
| Meshes.DynamicMesh.Create | Hengine/src/main/java/com/axehen/hengine/Mesh.kt:177-184 | the `init` checks: a new mesh exactly for a 3-component position and a 4-component rotation; otherwise IllegalArgument |
| Meshes.DynamicMesh.Draw | Hengine/src/main/java/com/axehen/hengine/Mesh.kt:186-188 | `draw()` draws the parts at the current position and rotation |
| Meshes.DynamicMesh.DrawOffset | Hengine/src/main/java/com/axehen/hengine/Mesh.kt:190-192 | `drawOffset` draws the parts at the offset arguments, or throws before drawing anything; the fields are not changed |
| Meshes.OffsetTraces | Hengine/src/main/java/com/axehen/hengine/Mesh.kt:202-204 | one `drawOffset` trace per part |
| Meshes.OffsetTracesAt | Hengine/src/main/java/com/axehen/hengine/Mesh.kt:203 | entry `i` of the per-part traces is part `i`'s `drawOffset` |
| Meshes.LoadPart | Hengine/src/main/java/com/axehen/hengine/Mesh.kt:199 | one loop step loads part `i` |
| Meshes.SprattelMesh.constructor | Hengine/src/main/java/com/axehen/hengine/Mesh.kt:197 | a sprattel mesh holds its position, rotation and parts |
| Meshes.SprattelMesh.Load | Hengine/src/main/java/com/axehen/hengine/Mesh.kt:198-200 | every part is loaded, in array order |
| Meshes.SprattelMesh.Draw | Hengine/src/main/java/com/axehen/hengine/Mesh.kt:202-204 | every part's `drawOffset(position, rotation)` runs in array order until one throws |
| Meshes.DrawPartOffset | Hengine/src/main/java/com/axehen/hengine/Mesh.kt:203 | one loop step draws part `i` at its offset and extends the chain, or ends it with the chain's exception |
| KotlinText.IndexOf | Hengine/src/main/java/com/axehen/hengine/ModelImport.kt:140 | `indexOf`: the first position holding the element, or -1 exactly when it is absent |
| KotlinText.Find | Hengine/src/main/java/com/axehen/hengine/ModelImport.kt:183 | the first occurrence of a character, or the end |
| KotlinText.Split | Hengine/src/main/java/com/axehen/hengine/ModelImport.kt:183 | `split(" ")` gives at least one piece |
| KotlinText.SplitJoin | Hengine/src/main/java/com/axehen/hengine/ModelImport.kt:183 | joining the pieces of a split with the delimiter gives the string back |
| KotlinText.SplitPiecesFree | Hengine/src/main/java/com/axehen/hengine/ModelImport.kt:183 | no piece holds the delimiter |
| KotlinText.JoinSplit | Hengine/src/main/java/com/axehen/hengine/ModelImport.kt:183 | delimiter-free pieces come back from splitting their join |
| KotlinText.FindAbsent | Hengine/src/main/java/com/axehen/hengine/ModelImport.kt:183 | without the character the search runs to the end |
| KotlinText.FindBefore | Hengine/src/main/java/com/axehen/hengine/ModelImport.kt:183 | a character right after a prefix without it is found there |
| KotlinText.FindBreak | Hengine/src/main/java/com/axehen/hengine/ModelImport.kt:181 | the first line terminator, with none before it |
| KotlinText.Lines | Hengine/src/main/java/com/axehen/hengine/ModelImport.kt:181 | `lines()` gives at least one line |
| KotlinText.LinesHaveNoBreaks | Hengine/src/main/java/com/axehen/hengine/ModelImport.kt:181 | no line holds a terminator |
| KotlinText.LinesOfLineFeeds | Hengine/src/main/java/com/axehen/hengine/ModelImport.kt:181 | on text without carriage returns the lines are the pieces between line feeds, and joining them gives the text back |
| KotlinText.FindBreakIsFind | Hengine/src/main/java/com/axehen/hengine/ModelImport.kt:181 | without carriage returns the first terminator is the first line feed |
| KotlinText.FindWhitespace | Hengine/src/main/java/com/axehen/hengine/ModelImport.kt:143 | the first whitespace character, with none before it |
| KotlinText.SkipWhitespace | Hengine/src/main/java/com/axehen/hengine/ModelImport.kt:143 | the run of whitespace that starts the string |
| KotlinText.SplitWhitespace | Hengine/src/main/java/com/axehen/hengine/ModelImport.kt:143 | `split("\\s+".toRegex())` gives at least one piece |
| KotlinText.SplitWhitespacePieces | Hengine/src/main/java/com/axehen/hengine/ModelImport.kt:143 | the pieces hold no whitespace and only the first and last can be empty |
| KotlinText.SplitWhitespaceWord | Hengine/src/main/java/com/axehen/hengine/ModelImport.kt:143 | a string without whitespace is one piece |
| KotlinText.ReplaceChar | Hengine/src/main/java/com/axehen/hengine/ModelImport.kt:165 | `replace` keeps the length |
| KotlinText.ReplaceCharReplaces | Hengine/src/main/java/com/axehen/hengine/ModelImport.kt:165 | no replaced character remains and every other character is kept |
| KotlinText.ReplaceCharAbsent | Hengine/src/main/java/com/axehen/hengine/ModelImport.kt:165 | a string without the character is unchanged |
| KotlinText.DigitsValueDefined | Hengine/src/main/java/com/axehen/hengine/ModelImport.kt:95 | exactly the non-empty digit strings have a value |
| KotlinText.ParseInt | Hengine/src/main/java/com/axehen/hengine/ModelImport.kt:95 | `toInt` yields only 32-bit values and fails on the empty string |
| KotlinText.Decimal | Hengine/src/main/java/com/axehen/hengine/ModelImport.kt:95 | a number's decimal rendering is a non-empty digit string |
| KotlinText.DigitsValueDecimal | Hengine/src/main/java/com/axehen/hengine/ModelImport.kt:95 | reading back a rendered number gives the number |
| KotlinText.ParseIntDecimal | Hengine/src/main/java/com/axehen/hengine/ModelImport.kt:95 | `toInt` inverts `toString` on every `Int`, negative ones included |
| ModelImport.ParseComponents | Hengine/src/main/java/com/axehen/hengine/ModelImport.kt:185-199 | `words[1..count].toDouble()` succeeds exactly when the words exist and all parse, giving their values in order; otherwise IndexOutOfBounds for a missing word or NumberFormat for a bad one, whichever comes first |
| ModelImport.Lookup | Hengine/src/main/java/com/axehen/hengine/ModelImport.kt:204 | a 1-based reference gives entry `k - 1`; a non-number throws NumberFormat and an index outside `1..size` throws IndexOutOfBounds |
| ModelImport.ResolveRef | Hengine/src/main/java/com/axehen/hengine/ModelImport.kt:202-212 | a reference resolved against well-formed lists is a well-formed vertex |
| ModelImport.Corners | Hengine/src/main/java/com/axehen/hengine/ModelImport.kt:201-213 | the corners of an `f` line come back one per reference read |
| ModelImport.CornersWellFormed | Hengine/src/main/java/com/axehen/hengine/ModelImport.kt:201-213 | every corner resolved from well-formed lists is well formed |
| ModelImport.ObjStepWellFormed | Hengine/src/main/java/com/axehen/hengine/ModelImport.kt:183-216 | every line keeps the lists well formed and adds at most one face |
| ModelImport.ParseLinesWellFormed | Hengine/src/main/java/com/axehen/hengine/ModelImport.kt:181-218 | after any prefix of the file that parses, positions and normals have 3 components, texture coordinates 2, faces are triangles, and there are no more faces than lines |
| ModelImport.ParseLinesFailed | Hengine/src/main/java/com/axehen/hengine/ModelImport.kt:181-218 | once a line throws, no later line is read |
| ModelImport.UnknownKeywordIgnored | Hengine/src/main/java/com/axehen/hengine/ModelImport.kt:215 | a line whose first word is not `v`, `vt`, `vn` or `f` changes nothing |
| ModelImport.ReferencesAreOneBased | Hengine/src/main/java/com/axehen/hengine/ModelImport.kt:202-212 | `p/t/n` succeeds exactly when each index is within what was read so far (an empty `t` meaning `(0, 0)`), and gives the scaled position, the texture coordinate and the normal they name |
| ModelImport.SplitThree | Hengine/src/main/java/com/axehen/hengine/ModelImport.kt:202 | `p/t/n` splits into its three slots |
| ModelImport.ExtraReferencesDropped | Hengine/src/main/java/com/axehen/hengine/ModelImport.kt:201 | only the first three references of an `f` line are read |
| ModelImport.CornersAgree | Hengine/src/main/java/com/axehen/hengine/ModelImport.kt:201-202 | corners depend only on the words they index |
| ModelImport.FewerReferencesFail | Hengine/src/main/java/com/axehen/hengine/ModelImport.kt:202 | an `f` line with fewer than three references throws |
| ModelImport.ScaleOnlyPositions | Hengine/src/main/java/com/axehen/hengine/ModelImport.kt:209-211 | `scale` multiplies positions only; texture coordinates and normals are taken as parsed |
| ModelImport.ParseObj | Hengine/src/main/java/com/axehen/hengine/ModelImport.kt:173-224 | `parseOBJ` ends with the exception of the first line that throws, or with the mesh `createMesh` builds from all the faces |
| ModelImport.ReadObjLines | Hengine/src/main/java/com/axehen/hengine/ModelImport.kt:181-218 | the line loop leaves exactly the lists, or the exception, of the line-by-line parse |
| ModelImport.Flatten | Hengine/src/main/java/com/axehen/hengine/ModelImport.kt:234-235 | the corners of all faces, three per face |
| ModelImport.FlattenAt | Hengine/src/main/java/com/axehen/hengine/ModelImport.kt:234-235 | corner `j` of face `f` is vertex `3*f + j`, so face and corner order are kept |
| ModelImport.HoldsStep | Hengine/src/main/java/com/axehen/hengine/ModelImport.kt:236-249 | writing vertex `n` into its slots extends the filled prefix by one vertex |
| ModelImport.WriteVertex | Hengine/src/main/java/com/axehen/hengine/ModelImport.kt:236-249 | one inner-loop pass writes exactly the vertex's three position, three normal and two texture slots and its draw-order entry `index` |
| ModelImport.CreateMesh | Hengine/src/main/java/com/axehen/hengine/ModelImport.kt:226-260 | `createMesh` always succeeds with arrays holding every corner in order and draw order `0, 1, 2, …` |
| ModelImport.WriteFace | Hengine/src/main/java/com/axehen/hengine/ModelImport.kt:235-250 | the inner loop writes the three corners of one face and advances the index by three |
| ModelImport.FlattenedIsUnique | Hengine/src/main/java/com/axehen/hengine/ModelImport.kt:226-260 | the mesh built from a face list is determined by it |
| ModelImport.TexturePath | Hengine/src/main/java/com/axehen/hengine/ModelImport.kt:165-166 | the texture path has no backslashes and lies under `textures/`, prefixed only when it did not already |
| ModelImport.TexturePathIdempotent | Hengine/src/main/java/com/axehen/hengine/ModelImport.kt:165-166 | rewriting a rewritten path changes nothing |
| ModelImport.WindowStart | Hengine/src/main/java/com/axehen/hengine/ModelImport.kt:140 | the block starts after the `newmtl name` line, or at line 0 when there is none |
| ModelImport.WindowEnd | Hengine/src/main/java/com/axehen/hengine/ModelImport.kt:141 | the block ends at the next line starting with `newmtl`, or at the end |
| ModelImport.Scan | Hengine/src/main/java/com/axehen/hengine/ModelImport.kt:141-156 | a colour read from a `Kd` line has four components, the last one 1 |
| ModelImport.MaterialIn | Hengine/src/main/java/com/axehen/hengine/ModelImport.kt:158-170 | the material's colour has four components with alpha 1 |
| ModelImport.GetMaterial | Hengine/src/main/java/com/axehen/hengine/ModelImport.kt:129-171 | `getShaderFromMTL` gives the material of the named block |
| ModelImport.ScanBlock | Hengine/src/main/java/com/axehen/hengine/ModelImport.kt:140-156 | the `while` loop gives exactly the block scan |
| ModelImport.ReadMaterialLine | Hengine/src/main/java/com/axehen/hengine/ModelImport.kt:143-153 | one `when` step either throws as the scan does or continues it |
| ModelImport.ScanWithoutKd | Hengine/src/main/java/com/axehen/hengine/ModelImport.kt:149 | a block without a `Kd` line leaves the colour as it was |
| ModelImport.ScanLastKd | Hengine/src/main/java/com/axehen/hengine/ModelImport.kt:149 | the last `Kd` line of the block decides the colour |
| ModelImport.ScanWithoutMapKd | Hengine/src/main/java/com/axehen/hengine/ModelImport.kt:145-146 | a block without `map_Kd` leaves the texture as it was |
| ModelImport.ScanLastMapKd | Hengine/src/main/java/com/axehen/hengine/ModelImport.kt:145-146 | the last `map_Kd` line decides the texture: its first argument |
| ModelImport.MaterialDefaultColor | Hengine/src/main/java/com/axehen/hengine/ModelImport.kt:162 | a material without `Kd` is opaque grey |
| ModelImport.MaterialLastColor | Hengine/src/main/java/com/axehen/hengine/ModelImport.kt:149-162 | a material's colour is that of the last `Kd` line of its block |
| ModelImport.MaterialWithoutTexture | Hengine/src/main/java/com/axehen/hengine/ModelImport.kt:165-169 | a material without `map_Kd` has no texture |
| ModelImport.MaterialLastTexture | Hengine/src/main/java/com/axehen/hengine/ModelImport.kt:165-169 | the texture is the rewritten first argument of the last `map_Kd` line |
| MotionEvents.ActionMasked | Hengine/src/main/java/com/axehen/hengine/UIRectangle.kt:180 | `actionMasked` is the low byte of the action word |
| MotionEvents.PointerIndex | Hengine/src/main/java/com/axehen/hengine/UIRectangle.kt:181 | the pointer index is bits 8 to 15 of the action word |
| MotionEvents.ActionWordRoundTrip | Hengine/src/main/java/com/axehen/hengine/UIRectangle.kt:180-181 | an action word built from a masked action and a pointer index gives both back |
| MotionEvents.PointerId | Hengine/src/main/java/com/axehen/hengine/UIRectangle.kt:182 | `getPointerId` gives the id at the index, and throws IllegalArgument exactly past the last pointer |
| UIRectangles.Rectangle.Load | Hengine/src/main/java/com/axehen/hengine/UIRectangle.kt:83-85 | `load()` loads the rectangle's shader |
| UIRectangles.Rectangle.Draw | Hengine/src/main/java/com/axehen/hengine/UIRectangle.kt:91-145 | `draw` issues exactly the rectangle's draw trace and ends with its outcome |
| UIRectangles.QuadInWholeVertices | Hengine/src/main/java/com/axehen/hengine/UIRectangle.kt:77-80 | the fixed quad always passes the `init` checks and has six draw-order entries |
| UIRectangles.GetOrigin | Hengine/src/main/java/com/axehen/hengine/UIRectangle.kt:23-38 | `getOrigin` throws NotImplemented exactly for CENTER on a rectangle with 2-component vectors (IndexOutOfBounds for shorter vectors), and otherwise gives a 2-component point |
| UIRectangles.OriginMirrorsLeftRight | Hengine/src/main/java/com/axehen/hengine/UIRectangle.kt:28-35 | swapping a left anchor for the right one reflects the origin about the screen's vertical centre line and keeps its height |
| UIRectangles.OriginMirrorsTopBottom | Hengine/src/main/java/com/axehen/hengine/UIRectangle.kt:28-33 | swapping a top anchor for the bottom one reflects the origin about the horizontal centre line and keeps its x |
| UIRectangles.MiddleAnchorIgnoresDimension | Hengine/src/main/java/com/axehen/hengine/UIRectangle.kt:32-35 | a middle anchor places the rectangle at half the screen plus its margin on that axis, whatever its dimension there |
| UIRectangles.Placement | Hengine/src/main/java/com/axehen/hengine/UIRectangle.kt:108-125 | the `mTransform` translation and scale: IndexOutOfBounds exactly for too-short vectors, and a CENTER rectangle is not translated |
| UIRectangles.DrawTrace | Hengine/src/main/java/com/axehen/hengine/UIRectangle.kt:91-145 | `draw` binds textures and enables positions first; it throws IndexOutOfBounds exactly for too-short vectors; otherwise it issues five effects with the six-index draw call fourth |
| UIRectangles.DrawnAtOrigin | Hengine/src/main/java/com/axehen/hengine/UIRectangle.kt:23-125 | drawn at the screen size divided by the scale, the quad's centre is `getOrigin` mapped into GL coordinates and its half-extent is the scaled dimension |
| UIRectangles.ScaledExtent | Hengine/src/main/java/com/axehen/hengine/UIRectangle.kt:112-125 | the quad's half-extent in pixels is the dimension times the scale |
| UIRectangles.DrawnAtOriginX | Hengine/src/main/java/com/axehen/hengine/UIRectangle.kt:24-123 | `DrawnAtOrigin` along x |
| UIRectangles.DrawnAtOriginY | Hengine/src/main/java/com/axehen/hengine/UIRectangle.kt:25-123 | `DrawnAtOrigin` along y |
| UIRectangles.OriginComponents | Hengine/src/main/java/com/axehen/hengine/UIRectangle.kt:23-38 | `getOrigin` coordinate by coordinate, per anchor side |
| UIRectangles.PlacementComponents | Hengine/src/main/java/com/axehen/hengine/UIRectangle.kt:108-125 | the `mTransform` translation and scale coordinate by coordinate, per anchor side |
| UIRectangles.IsWithin | Hengine/src/main/java/com/axehen/hengine/UIRectangle.kt:167-169 | `isWithin` throws IllegalArgument exactly for points of different sizes, and holds exactly when the squared distance is at most the squared scaled radius (with a non-negative radius) |
| UIRectangles.DistanceSquaredIsDifference | Hengine/src/main/java/com/axehen/hengine/UIRectangle.kt:168 | the squared distance is the squared length of `origin - touch` |
| UIRectangles.TouchStep | Hengine/src/main/java/com/axehen/hengine/UIRectangle.kt:178-199 | `touch` throws exactly for a pointer index past the pointers or a new press on a rectangle without an origin; only the acting pointer's registration changes; the event is consumed exactly when that pointer is or becomes registered; the action fires exactly when the registered set changes between empty and non-empty, on a press or a release accordingly; a registered pointer's event is always consumed, and it deregisters that pointer exactly when it is an `UP`/`POINTER_UP`; an unregistered pointer's event other than a press is ignored |
| UIRectangles.ReleaseDeregisters | Hengine/src/main/java/com/axehen/hengine/UIRectangle.kt:184-189 | lifting a registered pointer is consumed, removes exactly that pointer, and fires exactly when no pointer is left |
| UIRectangles.HeldPointerKept | Hengine/src/main/java/com/axehen/hengine/UIRectangle.kt:184-189 | any other event of a registered pointer is consumed, keeps the registered set and fires nothing |
| UIRectangles.TwoPointerRelease | Hengine/src/main/java/com/axehen/hengine/UIRectangle.kt:184-189 | with two pointers on the button, the first lift keeps it held without firing and the second releases it and fires |
| UIRectangles.PressInsideRegisters | Hengine/src/main/java/com/axehen/hengine/UIRectangle.kt:191-196 | a new pointer going down is consumed and registered exactly when it lands within the circle (touch y flipped), and the action fires exactly when no other pointer held the button |
| UIRectangles.WithinCircle | Hengine/src/main/java/com/axehen/hengine/UIRectangle.kt:168 | the hit test on the plane, written out in coordinates |
| UIRectangles.PlaneDistance | Hengine/src/main/java/com/axehen/hengine/UIRectangle.kt:168 | the squared distance of two plane points in coordinates |
| UIRectangles.CenterButtonPressThrows | Hengine/src/main/java/com/axehen/hengine/UIRectangle.kt:191-192 | a new press on a CENTER button throws NotImplemented |
| UIRectangles.Fired | Hengine/src/main/java/com/axehen/hengine/UIRectangle.kt:184-197 | a series of touches fires at most one action per event |
| UIRectangles.FiredAlternates | Hengine/src/main/java/com/axehen/hengine/UIRectangle.kt:184-197 | however pointers come and go, the actions fired alternate between press and release, and the button ends held exactly when the last one was a press |
| UIRectangles.UIButton.constructor | Hengine/src/main/java/com/axehen/hengine/UIRectangle.kt:170-173 | a new button holds no pointers and is not pressed |
| UIRectangles.UIButton.Touch | Hengine/src/main/java/com/axehen/hengine/UIRectangle.kt:178-199 | `touch` updates the registered pointers as `TouchStep` decides, keeps `isPressed` true exactly while a pointer holds the button, invokes the action with the raw action word when it fires, and changes nothing when it throws |
| UIRectangles.UIButton.Load | Hengine/src/main/java/com/axehen/hengine/UIRectangle.kt:83-85 | `load()` loads the button's shader |
| UIRectangles.UIButton.Draw | Hengine/src/main/java/com/axehen/hengine/UIRectangle.kt:201-205 | `draw` sets the `isPressed` uniform from the button's state, then draws the rectangle |
| UserInterfaces.LoadEffects | Hengine/src/main/java/com/axehen/hengine/UserInterface.kt:17-20 | loading rectangles issues one shader load per rectangle |
| UserInterfaces.LoadEffectsAt | Hengine/src/main/java/com/axehen/hengine/UserInterface.kt:17-20 | the k-th load is the k-th rectangle's shader, so the loads come in list order |
| UserInterfaces.ButtonRects | Hengine/src/main/java/com/axehen/hengine/UserInterface.kt:12 | the rectangles of the buttons, one per button, in order |
| UserInterfaces.ElementTraces | Hengine/src/main/java/com/axehen/hengine/UserInterface.kt:23 | one draw trace per rectangle, all at the same size |
| UserInterfaces.ElementTracesAt | Hengine/src/main/java/com/axehen/hengine/UserInterface.kt:23 | the k-th trace is the k-th rectangle drawn at that size |
| UserInterfaces.PressedStates | Hengine/src/main/java/com/axehen/hengine/UserInterface.kt:24 | whether each button is pressed, one per button, in order |
| UserInterfaces.ButtonTraces | Hengine/src/main/java/com/axehen/hengine/UserInterface.kt:24 | one draw trace per button |
| UserInterfaces.ButtonTracesAt | Hengine/src/main/java/com/axehen/hengine/UserInterface.kt:24 | the k-th button trace is the k-th button drawn with its own pressed state |
| UserInterfaces.ChainOutcome | Hengine/src/main/java/com/axehen/hengine/UserInterface.kt:23-24 | a `forEach` over calls that throw `IndexOutOfBoundsException` exactly on incomplete rectangles returns normally if and only if every rectangle is complete, and otherwise throws that exception |
| UserInterfaces.Completeness | Hengine/src/main/java/com/axehen/hengine/UserInterface.kt:23 | whether each rectangle has both dimensions and margins, in order |
| UserInterfaces.DrawOutcome | Hengine/src/main/java/com/axehen/hengine/UserInterface.kt:22-25 | `draw()` returns normally if and only if every rectangle and every button rectangle has both dimensions and margins; otherwise it throws `IndexOutOfBoundsException` |
| UserInterfaces.DrawAllSized | Hengine/src/main/java/com/axehen/hengine/UserInterface.kt:23 | when every rectangle is complete, all of them are drawn, in list order, with five calls each and no exception |
| UserInterfaces.DrawnInTurn | Hengine/src/main/java/com/axehen/hengine/UserInterface.kt:22-25 | rectangles drawn without an exception, followed by the buttons, leave the log that running one pass after the other gives |
| UserInterfaces.PointerIds | Hengine/src/main/java/com/axehen/hengine/UserInterface.kt:35-36 | the pointers each button holds, in order |
| UserInterfaces.ButtonSteps | Hengine/src/main/java/com/axehen/hengine/UserInterface.kt:35-36 | what `touch` decides for each button, given the pointers it holds |
| UserInterfaces.Taker | Hengine/src/main/java/com/axehen/hengine/UserInterface.kt:35-40 | the first button, in list order, whose `touch` throws or consumes the event; every button before it declines the event |
| UserInterfaces.UnconsumedChangesNothing | Hengine/src/main/java/com/axehen/hengine/UserInterface.kt:36 | a button that declines an event keeps its pointers and fires nothing |
| UserInterfaces.HolderTakesEvent | Hengine/src/main/java/com/axehen/hengine/UserInterface.kt:36 | a button that holds the event's pointer always takes the event, so no later button is offered it |
| UserInterfaces.DrawRectangles | Hengine/src/main/java/com/axehen/hengine/UserInterface.kt:23 | the `elements` pass logs the chain of rectangle draws and ends with that chain's outcome |
| UserInterfaces.DrawButtons | Hengine/src/main/java/com/axehen/hengine/UserInterface.kt:24 | the `buttons` pass logs the chain of button draws and ends with that chain's outcome |
| UserInterfaces.DrawButtonAt | Hengine/src/main/java/com/axehen/hengine/UserInterface.kt:24 | one turn of the button pass extends the log to the next prefix of the chain, or to the whole chain when that button throws |
| UserInterfaces.LoadRectangles | Hengine/src/main/java/com/axehen/hengine/UserInterface.kt:18 | the `elements` pass logs one shader load per rectangle, in order |
| UserInterfaces.LoadButtons | Hengine/src/main/java/com/axehen/hengine/UserInterface.kt:19 | the `buttons` pass logs one shader load per button, in order |
| UserInterfaces.UserInterface.constructor | Hengine/src/main/java/com/axehen/hengine/UserInterface.kt:11-15 | a new UI has no rectangles, no buttons, scale 1 and no background lambda |
| UserInterfaces.UserInterface.SetOnTouchBackground | Hengine/src/main/java/com/axehen/hengine/UserInterface.kt:28 | `setOnTouchBackground` installs the background lambda and changes nothing else |
| UserInterfaces.UserInterface.Load | Hengine/src/main/java/com/axehen/hengine/UserInterface.kt:17-20 | `load()` loads every rectangle's shader, then every button's, in list order |
| UserInterfaces.UserInterface.DrawnTrace | Hengine/src/main/java/com/axehen/hengine/UserInterface.kt:22-25 | `draw()` returns normally exactly when every rectangle and every button's rectangle has dimensions and margins, and otherwise throws `IndexOutOfBoundsException` |
| UserInterfaces.UserInterface.Draw | Hengine/src/main/java/com/axehen/hengine/UserInterface.kt:22-25 | `draw()` logs exactly what `DrawnTrace` gives: every rectangle, then every button, at the screen size divided by the scale, the first exception ending the drawing and being returned |
| UserInterfaces.UserInterface.OnTouchEvent | Hengine/src/main/java/com/axehen/hengine/UserInterface.kt:33-43 | the first button that consumes the event updates its pointers, fires its action when it should, requests a render and ends the dispatch with `true`; a button that throws ends it with that exception and no effect; when none consumes it the background lambda runs, if set, and the result says whether it was set; all other buttons keep their pointers |
| UserInterfaces.Dispatch | Hengine/src/main/java/com/axehen/hengine/UserInterface.kt:35-42 | the loop of `onTouchEvent`, proved against `Taker`: the same outcome as `OnTouchEvent` states |
| UserInterfaces.OfferTo | Hengine/src/main/java/com/axehen/hengine/UserInterface.kt:36-38 | one iteration: `touch` returns false exactly when the button declines, and then nothing changes; otherwise the button's pointers and the log follow its step |
| UserInterfaces.Min | Hengine/src/main/java/com/axehen/hengine/UserInterface.kt:114 | `min` of two ints is at most each and equal to one of them |
| UserInterfaces.ApplyDeadZone | Hengine/src/main/java/com/axehen/hengine/UserInterface.kt:80-85 | a dead zone of 0 leaves the vector as is; otherwise each component whose magnitude is at most `radius` becomes 0 and the others are rescaled |
| UserInterfaces.RescaledEnds | Hengine/src/main/java/com/axehen/hengine/UserInterface.kt:84 | the rescaling sends 1 to 1, -1 to -1 and the dead-zone edge to 0, so the output rises linearly from the dead zone to full deflection |
| UserInterfaces.DeadZoneKeepsSignAndRange | Hengine/src/main/java/com/axehen/hengine/UserInterface.kt:80-85 | with the dead zone inside the radius, a component in [-1, 1] comes out in [-1, 1] with its sign kept |
| UserInterfaces.DeadZoneWiderThanRadiusFlipsSign | Hengine/src/main/java/com/axehen/hengine/UserInterface.kt:84 | the threshold tests `radius`, not `deadZoneRadius`: with radius 0.25 and dead zone 0.5, a push of 0.3 to the right is reported as 0.4 to the left |
| UserInterfaces.PinchDistance | Hengine/src/main/java/com/axehen/hengine/UserInterface.kt:92 | with exactly two pointers the result is the distance between them (its square is the sum of the squared differences); otherwise 0 |
| UserInterfaces.Displaced | Hengine/src/main/java/com/axehen/hengine/UserInterface.kt:114 | the stick moved by the pixel deltas scaled by `radius * min(width, height)` stays two-dimensional |
| UserInterfaces.FollowLimit | Hengine/src/main/java/com/axehen/hengine/UserInterface.kt:117 | `followOnLimit` keeps the dimension of the stick |
| UserInterfaces.MovedStick | Hengine/src/main/java/com/axehen/hengine/UserInterface.kt:114-117 | the stick after a one-pointer move stays two-dimensional |
| UserInterfaces.Reported | Hengine/src/main/java/com/axehen/hengine/UserInterface.kt:120-122 | the reported value is two-dimensional |
| UserInterfaces.StickStep | Hengine/src/main/java/com/axehen/hengine/UserInterface.kt:87-140 | every event records the first pointer and the pinch distance; an action other than release or move leaves the stick and fires nothing; at most one callback fires |
| UserInterfaces.SpringBackRecentres | Hengine/src/main/java/com/axehen/hengine/UserInterface.kt:95-103 | releasing a spring-back stick recentres it and reports `xFunction(0)` for both components |
| UserInterfaces.FollowLimitBounds | Hengine/src/main/java/com/axehen/hengine/UserInterface.kt:117 | a stick that follows the finger is never longer than 1 after a move; one that does not is left as is |
| UserInterfaces.ReportedInRange | Hengine/src/main/java/com/axehen/hengine/UserInterface.kt:120-122 | a stick within the unit circle is reported as its dead-zoned self, each component in [-1, 1] with the stick's sign |
| UserInterfaces.ComponentsInUnit | Hengine/src/main/java/com/axehen/hengine/UserInterface.kt:120-122 | each component of a planar vector of length at most 1 lies in [-1, 1] |
| UserInterfaces.UnfollowedStickOvershoots | Hengine/src/main/java/com/axehen/hengine/UserInterface.kt:120-121 | a stick that does not follow the finger and is longer than 1 is reported with length `len*len`, longer than 1, although the coercion is meant to cap it at 1 |
| UserInterfaces.PinchReportsChange | Hengine/src/main/java/com/axehen/hengine/UserInterface.kt:128-133 | a two-pointer move reports the change of the pinch distance since the last event, over the screen height |
| UserInterfaces.PinchesAccumulate | Hengine/src/main/java/com/axehen/hengine/UserInterface.kt:128-139 | two pinch reports in a row add up to the whole change of the distance over both events |
| UserInterfaces.UITouchStick.constructor | Hengine/src/main/java/com/axehen/hengine/UserInterface.kt:57-71 | a new stick is centred, with no previous touch and distance 0 |
| UserInterfaces.UITouchStick.OnTouch | Hengine/src/main/java/com/axehen/hengine/UserInterface.kt:87-140 | `onTouch` moves the stick to the state `StickStep` gives and logs the callbacks it gives |
| UserInterfaces.UITouchStick.MoveStick | Hengine/src/main/java/com/axehen/hengine/UserInterface.kt:112-126 | a one-pointer move stores the moved stick and calls the stick callback with its reported value through the activation functions |
| Renderer.RemoveAll | Hengine/src/main/java/com/axehen/hengine/GameRenderer.kt:111 | removing a set from a list never lengthens it |
| Renderer.RemoveAllCounts | Hengine/src/main/java/com/axehen/hengine/GameRenderer.kt:111 | after `removeAll`, a removed drawable occurs nowhere and every other drawable occurs as often as before |
| Renderer.RemoveAllDistributes | Hengine/src/main/java/com/axehen/hengine/GameRenderer.kt:111 | `removeAll` works element by element: removing from a concatenation is removing from each part, so the kept drawables keep their order |
| Renderer.SweepThenDrain | Hengine/src/main/java/com/axehen/hengine/GameRenderer.kt:109-113 | after the sweep and the drain, the queued drawables end the active list in queue order, and the list is at most the old list plus the queue |
| Renderer.SweepThenDrainCounts | Hengine/src/main/java/com/axehen/hengine/GameRenderer.kt:109-113 | after the frame, a drawable occurs as often as it was queued, plus its old count unless it was removed |
| Renderer.AddedAndRemovedStaysActive | Hengine/src/main/java/com/axehen/hengine/GameRenderer.kt:37-41 | a drawable added and removed before the same frame is still drawn: the sweep runs before the queue is drained |
| Renderer.LoadEffects | Hengine/src/main/java/com/axehen/hengine/GameRenderer.kt:27-34 | draining the queue loads one drawable per entry |
| Renderer.LoadEffectsAt | Hengine/src/main/java/com/axehen/hengine/GameRenderer.kt:27-34 | the k-th load is the k-th queued drawable, so loads come in queue order |
| Renderer.DrawEffects | Hengine/src/main/java/com/axehen/hengine/GameRenderer.kt:133 | one draw per active drawable |
| Renderer.DrawEffectsAt | Hengine/src/main/java/com/axehen/hengine/GameRenderer.kt:133 | the k-th draw is the k-th active drawable, in list order |
| Renderer.CameraPosition | Hengine/src/main/java/com/axehen/hengine/GameRenderer.kt:120-123 | the camera position is the componentwise sum of the first three components of `lookFrom` and `lookAt`; either vector shorter than 3 throws `IndexOutOfBoundsException` |
| Renderer.FrameTrace | Hengine/src/main/java/com/axehen/hengine/GameRenderer.kt:116-139 | a frame throws `IndexOutOfBoundsException` right after the clear when a camera vector is too short; otherwise it issues the clear, the camera uniforms, one draw per active drawable and the UI pass, and throws exactly when the UI's draw throws, with that exception |
| Renderer.FrameOrder | Hengine/src/main/java/com/axehen/hengine/GameRenderer.kt:116-133 | in a frame that does not throw, the clear comes first, the camera uniforms second, the k-th active drawable is drawn at position k + 2, and the UI pass (depth test off, UI draw, depth test on) comes last |
| Renderer.QueuedDrawnLast | Hengine/src/main/java/com/axehen/hengine/GameRenderer.kt:109-133 | the drawables queued for a frame are drawn in that frame, after every older drawable |
| Renderer.RenderFrame | Hengine/src/main/java/com/axehen/hengine/GameRenderer.kt:116-139 | the frame after the drain logs exactly what `FrameTrace` gives for the UI's own draw at the screen size, and ends with its outcome |
| Renderer.SceneTrace | Hengine/src/main/java/com/axehen/hengine/GameRenderer.kt:116-133 | the part before the UI throws right after the clear exactly when a camera vector is too short; otherwise it is the clear, the camera uniforms and the active drawables' draws in list order |
| Renderer.DrawScene | Hengine/src/main/java/com/axehen/hengine/GameRenderer.kt:116-133 | the clear, the camera uniforms and the draws log exactly what `SceneTrace` gives |
| Renderer.UIDrawn | Hengine/src/main/java/com/axehen/hengine/GameRenderer.kt:135-137 | there is a UI draw exactly when a UI is installed; it can only throw `IndexOutOfBoundsException` |
| Renderer.UIPass | Hengine/src/main/java/com/axehen/hengine/GameRenderer.kt:135-139 | no UI issues nothing; a UI is drawn between the depth test going off and on, and a throwing draw ends the pass with its exception and the depth test still off |
| Renderer.DrawUIPass | Hengine/src/main/java/com/axehen/hengine/GameRenderer.kt:135-139 | the UI block logs exactly what `UIPass` gives for the UI's draw and ends with its outcome |
| Renderer.DrawUI | Hengine/src/main/java/com/axehen/hengine/GameRenderer.kt:136-138 | depth test off, the UI's draw, and depth test on only when the draw did not throw |
| Renderer.UIFailureLeavesDepthTestOff | Hengine/src/main/java/com/axehen/hengine/GameRenderer.kt:135-139 | a frame whose UI draw throws ends with that exception, and the log ends with the depth test disabled followed by the UI's calls |
| Renderer.IncompleteUIFailsFrame | Hengine/src/main/java/com/axehen/hengine/GameRenderer.kt:135-139 | a UI holding a rectangle without dimensions or margins makes every frame with a valid camera throw `IndexOutOfBoundsException`, with the depth test left disabled |
| Renderer.UILoadEffects | Hengine/src/main/java/com/axehen/hengine/GameRenderer.kt:106 | no UI loads nothing; a UI loads one shader per rectangle and per button |
| Renderer.CacheShader | Hengine/src/main/java/com/axehen/hengine/GameRenderer.kt:48-66 | `loadShader` always leaves the shader cached with the id it returns; a cached shader returns its cached id and changes nothing; a new one gets the new program id; no cached id is ever changed |
| Renderer.CacheShaderStable | Hengine/src/main/java/com/axehen/hengine/GameRenderer.kt:49 | loading a shader a second time returns the same id and leaves the cache as it is |
| Renderer.CacheShaderKeeps | Hengine/src/main/java/com/axehen/hengine/GameRenderer.kt:48-66 | loading other shaders in between does not change a shader's cached id |
| Renderer.ViewFor | Hengine/src/main/java/com/axehen/hengine/GameRenderer.kt:69-74 | `updateView` throws `IllegalArgumentException` exactly when `lookFrom` and `lookAt` differ in size and `IndexOutOfBoundsException` exactly when they agree but a vector is shorter than 3; otherwise the view looks at `lookAt` with the up vector `upVec` |
| Renderer.EyeIsCameraPosition | Hengine/src/main/java/com/axehen/hengine/GameRenderer.kt:69-123 | the eye of the view and the camera position passed to the shaders are the same point |
| Renderer.ProjectionFor | Hengine/src/main/java/com/axehen/hengine/GameRenderer.kt:81-86 | the frustum is symmetric about the view axis, 5*zoom high on each side with the screen's aspect ratio, with clip planes 1 and 500 |
| Renderer.ZoomScalesFrustum | Hengine/src/main/java/com/axehen/hengine/GameRenderer.kt:84 | zooming scales the four sides of the frustum by the zoom and keeps its clip planes |
| Renderer.GameRenderer.constructor | Hengine/src/main/java/com/axehen/hengine/GameRenderer.kt:16-89 | a new renderer has up vector (0, 0, 1), no UI, empty lists, no cached shader, looks from (0, 0, 1) at the origin with zoom 1, and has no matrices yet |
| Renderer.GameRenderer.SetUpVec | Hengine/src/main/java/com/axehen/hengine/GameRenderer.kt:17 | `setUpVec` stores the up vector |
| Renderer.GameRenderer.SetUserInterface | Hengine/src/main/java/com/axehen/hengine/GameRenderer.kt:20 | `setUserInterface` installs the given UI object |
| Renderer.GameRenderer.Add | Hengine/src/main/java/com/axehen/hengine/GameRenderer.kt:37 | `add` queues the drawable at the end |
| Renderer.GameRenderer.AddAll | Hengine/src/main/java/com/axehen/hengine/GameRenderer.kt:38-39 | `addAll` queues the drawables at the end, in order |
| Renderer.GameRenderer.Remove | Hengine/src/main/java/com/axehen/hengine/GameRenderer.kt:40 | `remove` marks the drawable for the next sweep |
| Renderer.GameRenderer.LoadShader | Hengine/src/main/java/com/axehen/hengine/GameRenderer.kt:48-66 | `loadShader` updates the cache as `CacheShader` states and creates a program only for an uncached shader |
| Renderer.GameRenderer.LoadNewDrawables | Hengine/src/main/java/com/axehen/hengine/GameRenderer.kt:27-34 | draining empties the queue, appends it in order to the active list and loads each drawable in queue order |
| Renderer.GameRenderer.UpdateView | Hengine/src/main/java/com/axehen/hengine/GameRenderer.kt:69-74 | `updateView` stores the view `ViewFor` gives, or throws its exception leaving the view as it was |
| Renderer.GameRenderer.OnSurfaceChanged | Hengine/src/main/java/com/axehen/hengine/GameRenderer.kt:143-147 | the viewport is set to the new size, then the projection becomes the frustum for that size and the current zoom |
| Renderer.GameRenderer.OnSurfaceCreated | Hengine/src/main/java/com/axehen/hengine/GameRenderer.kt:94-107 | the clear colour and alpha blending are set first, then the view; if that throws nothing else happens; otherwise the depth test is enabled with a less-or-equal comparison and the installed UI, if any, is loaded |
| Renderer.GameRenderer.EnableDepthAndLoadUI | Hengine/src/main/java/com/axehen/hengine/GameRenderer.kt:102-106 | the depth test on with a less-or-equal comparison, then the loads of the installed UI's rectangles and buttons |
| Renderer.GameRenderer.OnDrawFrame | Hengine/src/main/java/com/axehen/hengine/GameRenderer.kt:109-140 | a frame sweeps the removals, drains the queue (loading each queued drawable), clears the removals, then logs the frame `FrameTrace` gives over the resulting active list with the installed UI's draw at the screen size, and ends with its outcome; the view and projection are left as they were |
| Renderer.GameRenderer.SweepAndDrain | Hengine/src/main/java/com/axehen/hengine/GameRenderer.kt:111-113 | the active list becomes `SweepThenDrain` of the old lists, the queue and the removal set are emptied, and each queued drawable is loaded in order |
| Renderer.DrawAll | Hengine/src/main/java/com/axehen/hengine/GameRenderer.kt:133 | `drawables.forEach { it.draw() }` logs one draw per drawable, in order |
| Trucks.CoerceIn | app/src/main/java/se/henaxel/luriglogistik/Truck.kt:36 | `coerceIn` throws `IllegalArgumentException` exactly on an empty range; otherwise the result is in the range, is the value itself inside it, and the nearer end outside it |
| Trucks.CoerceInIdempotent | app/src/main/java/se/henaxel/luriglogistik/Truck.kt:36 | clamping twice is clamping once |
| Trucks.Limited | app/src/main/java/se/henaxel/luriglogistik/Truck.kt:46 | the stored value is in [-limit, limit], and only a negative limit throws |
| Trucks.PercentageOf | app/src/main/java/se/henaxel/luriglogistik/Truck.kt:50 | a percentage setter throws exactly when the limit is negative |
| Trucks.PercentageOfLimit | app/src/main/java/se/henaxel/luriglogistik/Truck.kt:50 | a fraction in [-1, 1] stores exactly that fraction of the limit; a larger one saturates at the limit, a smaller one at its negation |
| Trucks.HandleRotation | app/src/main/java/se/henaxel/luriglogistik/Truck.kt:37 | the handle turns about the z axis by the negated angle |
| Trucks.HandleDisagreesBeyondLimit | app/src/main/java/se/henaxel/luriglogistik/Truck.kt:35-37 | `setWheelAngle` turns the handle by its argument, so whenever the argument is beyond the limit the handle shows an angle different from the stored one |
| Trucks.Truck.constructor | app/src/main/java/se/henaxel/luriglogistik/Truck.kt:13-26 | a new truck stands still with straight wheels, keeps its limits and is a sprattel mesh whose parts are the chassis and the handle at their indices |
| Trucks.Truck.SetWheelAngle | app/src/main/java/se/henaxel/luriglogistik/Truck.kt:35-39 | `setWheelAngle` stores the clamped angle and turns the handle by the argument; a negative limit throws and changes nothing |
| Trucks.Truck.SetWheelAnglePercentage | app/src/main/java/se/henaxel/luriglogistik/Truck.kt:40-44 | `setWheelAnglePercentage` stores the clamped fraction of the limit and turns the handle by the stored angle; a negative limit throws and changes nothing |
| Trucks.Truck.SetSpeed | app/src/main/java/se/henaxel/luriglogistik/Truck.kt:45-48 | `setSpeed` stores the clamped speed; a negative top speed throws and changes nothing |
| Trucks.Truck.SetSpeedPercentage | app/src/main/java/se/henaxel/luriglogistik/Truck.kt:49-52 | `setSpeedPercentage` stores the clamped fraction of the top speed; a negative top speed throws and changes nothing |
| Trucks.SprattelIndex.Value | app/src/main/java/se/henaxel/luriglogistik/Truck.kt:57-59 | the index values are 0 and 1 |
| Trucks.FirstWithValue | app/src/main/java/se/henaxel/luriglogistik/Truck.kt:62 | `first` returns an entry with the value, or throws `NoSuchElementException` when no entry has it |
| Trucks.FromInt | app/src/main/java/se/henaxel/luriglogistik/Truck.kt:62 | `fromInt` succeeds exactly on 0 and 1, with the entry of that value, and otherwise throws `NoSuchElementException` |
| Trucks.FromIntValue | app/src/main/java/se/henaxel/luriglogistik/Truck.kt:57-63 | every index is found again from its value |

## Left out

- Floating point: Kotlin `Double` and `Float` are `real`, so rounding, the `toFloat` conversions, NaN and the infinities are not modelled. Divisions the source makes by a possibly zero number are preconditions instead: the screen size and scale in the UI placement and drawing, `NonZeroDivisors` for the touch stick (including `deadZoneRadius != 1`), `height != 0` in `Renderer.ProjectionFor`, a non-zero length in `Vectors.Normalize`, `factor != 0` in `Vectors.Div`, and, in `Vectors.CoerceLengthWithin`, a zero length whenever `max == 0` and `min <= 0` (the only inputs that reach the `length/max` scaling with `max == 0`; a positive `min` above a zero `max` throws `IllegalArgumentException` first, `Vectors.CoerceZeroMaxBelowMin`).
- `sqrt` is a parameter constrained by `RealMath.IsSqrt`. The trigonometry of `Truck.onTick`, `Vector.degreesToRadians` and `radiansToDegrees` is not modelled. `Truck`'s `pivotYOffset` and `turnWheelYOffset`, used only by `onTick`, are not fields of the model.
- OpenGL ES and `android.opengl.Matrix`: the GL calls, the bodies of `setIdentityM`, `translateM`, `rotateM`, `frustumM` and `setLookAtM`, and the attribute buffers are not modelled. The calls are `Effect`s, and some are folded together: `glEnable(GL_BLEND)` with `glBlendFunc` is `AlphaBlending`, `glDepthFunc(GL_LEQUAL)` with `glDepthMask(true)` is `DepthLessOrEqual`, and the per-program `glUseProgram`, `glGetUniformLocation` and three uniform calls of a frame are one `CameraUniforms` carrying the program ids, the camera position and the arguments of the last `setLookAtM` and `frustumM`. The attribute and uniform handles that `glGetAttribLocation`/`glGetUniformLocation` return are not modelled.
- The UI is drawn at `game.width` by `game.height`, read from `AbstractGame`; those are parameters of `Renderer.GameRenderer.OnDrawFrame` and `UserInterfaces.UserInterface.Draw`.
- `Shader`, `Drawable`, `Utils`, `AbstractTexture` and `AbstractGame` are not part of this model. A shader or drawable is an opaque identity, and its `load`/`draw`/`bindTextures` calls are effects. `glCreateProgram`'s new id is a parameter of `LoadShader`, and shader compilation, linking and their error checks are a single `CreateProgram` effect.
- The game's lambdas (button actions, the background lambda, the stick and pinch callbacks) and `requestRender` are effects; their bodies are not part of this model. The activation functions `xFunction`/`yFunction` are pure functions in `StickConfig`.
- Asset and bitmap loading through the Android context is I/O: `parseOBJ` takes the text already read, and `toDouble` is a parameter. `parseOBJMTL` refers to locals it never defines and closes its streams before use, so only its `getShaderFromMTL` part is modelled, over the lines of the `.mtl` text.
- Vectors.CoerceLengthWithin and Vectors.Deflect return values: where the source returns `this`, the caller's result aliases the receiver `Vector`, which the model does not capture. No modelled caller mutates such a result.
- Matrices.Matrix.Times: requires both operands to be `Sized` and `m * other.n < 2^31`. A matrix whose `m*n` wrapped around in 32 bits passes `init` (`Matrices.InitCheckOverflow`), and `times` on it throws `IndexOutOfBoundsException` reading past its list; a result size beyond 32 bits would make `MutableList` fail. Neither path is modelled by this method.
- KotlinText.ParseInt: accepts only the ASCII digits `0`-`9`. The JVM's `toInt` also accepts every other Unicode decimal digit (Arabic-Indic, Devanagari and so on), so such strings are errors in the model but numbers in the source.
- `ModelImport.ParseObj` and `ModelImport.CreateMesh` require at most `(2^31 - 1) / 9` lines or faces, so that the Kotlin `Int` array sizes do not overflow.
- Concurrency: the renderer's lists are fed from other threads and the camera is written from the tick loop. The model is single-threaded.
- `HashMap` and `HashSet` iteration order: the programs receiving the camera uniforms are a set, so the model does not fix the order of their uniform calls.
- The touch stick's lazily read `width` and `height` are fixed at construction in `StickConfig`: the model does not capture a screen size that changes before the first read.
- `MotionEvent` is its raw action word and a non-empty sequence of pointers (id and coordinates). Its history, pressure and the rest of the Android event object are not modelled.
- `UIRectangle.isPressed` is settable from outside the class in the source. The model keeps it in step with the registered pointers, as `touch` does.
- `Log` calls and `toString` are left out: they only produce text for the log.
- The `Vector` list overrides other than those modelled (`subList`, which calls itself forever, `iterator`, `contains` and the like) are not modelled.
- `Environment.kt`, `Collidable.kt`, `AbstractGame.kt`, `MainActivity.kt` and the game's scene setup are not part of this model.
- The `VectorTest` assertions that contradict the code (exact float equality, a negative length, exceptions the code never throws, structural `==` on vectors) are not encoded: the model follows the code.
