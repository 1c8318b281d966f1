# RustCraft core in Dafny

RustCraft is a small OpenGL rendering toy written in Rust. This project models the parts of it that compute rather than talk to the window or the GPU:

- **Linear algebra.** The live generation comes first. It has the generic row-major matrix `Mat<T, M, N>` (src/utils/mat.rs) and the vectors as 1×N matrices (src/utils/types.rs). It also has the math helpers in src/utils/math.rs: epsilon comparison, norm, cross product and the homogeneous rotate, translate and scale layouts. The transforms `radian`, `look_at` and `perspective` are in src/utils/mod.rs.
- **The older per-shape generation.** The `impl_mat_*` macros in src/utils/mat/mod.rs, the shape files src/utils/mat/mat*.rs, and the `impl_vec_ops_*` macros with `Vec3` in src/utils/vec/.
- **The three cameras.** `SpaceCamera` and `GodCamera`, and the older `Camera` of src/camera/mod.rs. Each is a class whose fields are updated by `update`, `mouse_move` / `mouse_update` and `mouse_scroll`.
- **The resource managers.** The shader manager pairs vertex and fragment sources by file stem. The model manager and its JSON description validators sit beside the texture manager. Shader and model lookups warn once per missing name.
- **The vertex-layout parser.** It turns a description such as `"3f;3f;2f"` into attribute pointers (src/gl_utils.rs).
- **The logger.** It filters by level and formats each line (src/log.rs).

Matrix entries are exact `real`s. `sin`, `cos`, `tan`, `sqrt` and `π` are fields of a `Libm` parameter, and no law about them is assumed except where a lemma's `requires` states one. A Rust panic is the `Panic` alternative of `Outcome.Result`: an index out of bounds, an `unwrap` of `None` or `Err`, a `panic!`, or an `i32` overflow in a debug build. Errors the source returns are `Err`. Directory listings, file contents, parsed JSON values and the GL compile and link results are inputs. The key and button states the cameras poll are inputs too. The basis vectors the cameras build are computed from the `Libm` functions: `CameraSpace.Front` and `CameraSpace.Right` through `rotate3_y`, and `CameraLegacy.FrontOf` from the angles.

A loop in the source is a `method` with a loop, proved equal to a function that states what it computes. The properties the source promises are lemmas about that function.

Places where the repository's files do not agree with each other:
- src/model/model_file.rs calls `ElementModel::load_from_json` on an already parsed value. The `load_from_json` in src/model/model.rs takes a path and reads the file itself. The model has both: `ElementModels.LoadFromFile` is the path version, and `ModelFiles.Dispatch` runs the same validation chain (`ElementModels.Validate`) on the parsed value. src/model/model_file.rs also imports `super::element_model`, which src/model/mod.rs does not declare. The model follows what the code evidently means.
- src/camera/space_camera.rs and src/camera/god_camera.rs implement a `Camera` trait and register in a `CAMERA_SYSTEM`. The src/camera/mod.rs in this snapshot still holds the older `Camera` struct. Each camera is modelled from its own file, and the trait and the registry are left out.
- src/model/array_model.rs:21 calls `gl_utils::create_array_model_context`, which is defined nowhere; src/gl_utils.rs defines only `create_model_context`. `ArrayModels.New` therefore keeps the vertices and sets up no layout.
- The layout comment at src/model/mod.rs:59-65 lists the type letters `f`, `i`, `u` (unsigned) and `_` (a one-byte placeholder). The parser at src/gl_utils.rs:91-96 accepts only `f`, `i` and `b`, and panics on any other letter. The model follows the parser: `VertexLayout.RejectedDescriptions` shows that `"3u"` and `"3_"` panic.
- The older matrix generation does not build in this snapshot. src/utils/mod.rs:38 declares `mod mat;`, and both src/utils/mat.rs and src/utils/mat/mod.rs exist, which Rust rejects as ambiguous. No `mod vec` is declared for src/utils/vec/. The `data` field of `Mat2` (src/utils/mat/mat2.rs:4) and `Mat4` (src/utils/mat/mat4.rs:5) is private, but the product instances at src/utils/mat/mod.rs:229-240 expand in the parent module and read it. `Mat2` also has no `Default` (src/utils/mat/mat2.rs:7-19 defines only `new` and `zero`), yet the product macro builds its result with `<$retype>::default()` (src/utils/mat/mod.rs:95), and lines 229 and 231 have `Mat2` as the result type; the model uses `zero()` there. The generation is modelled as written, as if these were resolved, and the two matrix rows under "## Findings" are about that code as written.

## Model

| member | source | states |
|---|---|---|
| Matrix.New | src/utils/mat.rs:42-59 | `new()` and `default()`: an M×N matrix whose every entry is zero |
| Matrix.From | src/utils/mat.rs:26-30 | `From<[[T; N]; M]>`: an M×N grid becomes the matrix of that shape |
| Matrix.Into | src/utils/mat.rs:32-36 | `Into`: the storage is an M×N grid |
| Matrix.IntoFrom | src/utils/mat.rs:26-36 | `into(from(a))` gives back the array, entry by entry |
| Matrix.FromInto | src/utils/mat.rs:26-36 | `from(into(m))` gives back the matrix |
| Matrix.Rows | src/utils/mat.rs:286-289 | `rows()` is the number of stored rows |
| Matrix.Cols | src/utils/mat.rs:290-293 | `cols()` is the length of every stored row |
| Matrix.Count | src/utils/mat.rs:294-297 | `count()` is rows times columns, the number of stored entries |
| Matrix.Ext | src/utils/mat.rs:1-5 | the derived `PartialEq`: matrices of one shape that agree in every entry are equal |
| Matrix.Index | src/utils/mat.rs:189-196 | `a[i]` is row i exactly when i < M; any other index is a bounds panic |
| Matrix.Set | src/utils/mat.rs:198-203 | writing `m[i][j] = x` changes entry (i, j) to x and no other entry, and keeps the shape |
| Matrix.Sum | src/utils/mat.rs:61-77 | the reference sum: same shape, entries a[i][j] + b[i][j] |
| Matrix.Difference | src/utils/mat.rs:79-95 | the reference difference: same shape, entries a[i][j] - b[i][j] |
| Matrix.Negated | src/utils/mat.rs:205-221 | the reference negation: same shape, entries -a[i][j] |
| Matrix.Scaled | src/utils/mat.rs:97-113 | the reference scalar product: same shape, entries a[i][j]·k |
| Matrix.Quotient | src/utils/mat.rs:115-131 | the reference scalar quotient: same shape, entries a[i][j]/k |
| Matrix.Product | src/utils/mat.rs:223-241 | the reference M×K by K×N product: an M×N matrix of dot products |
| Matrix.Transposed | src/utils/mat.rs:247-257 | the reference transpose: an N×M matrix with entry (j, i) equal to a[i][j] |
| Matrix.Identity | src/utils/mat.rs:268-278 | the reference identity: M×M, 1 on the diagonal and 0 elsewhere |
| Matrix.Add | src/utils/mat.rs:68-76 | the double loop builds exactly the entrywise sum |
| Matrix.Sub | src/utils/mat.rs:86-94 | the double loop builds exactly the entrywise difference |
| Matrix.Neg | src/utils/mat.rs:212-220 | the double loop builds exactly the entrywise negation |
| Matrix.MulScalar | src/utils/mat.rs:104-112 | the double loop builds exactly the scaled matrix |
| Matrix.DivScalar | src/utils/mat.rs:122-130 | the double loop builds exactly the quotient matrix, for a non-zero divisor |
| Matrix.Mul | src/utils/mat.rs:230-240 | the triple loop with `+=` builds exactly the matrix product |
| Matrix.T | src/utils/mat.rs:249-257 | the loop that writes `result[j][i]` builds exactly the transpose |
| Matrix.Transpose | src/utils/mat.rs:259-261 | `transpose()` is the transpose, as `T()` is |
| Matrix.I | src/utils/mat.rs:270-282 | zeros and then 1 on the diagonal give exactly the identity; `identity()` is the same |
| Matrix.MatMut.constructor | src/utils/mat.rs:1-5 | a mutable binding starts with the given matrix |
| Matrix.MatMut.AddAssign | src/utils/mat.rs:133-145 | `+=` replaces the matrix with the sum of the old one and the right-hand side |
| Matrix.MatMut.SubAssign | src/utils/mat.rs:147-159 | `-=` replaces the matrix with the old one minus the right-hand side |
| Matrix.MatMut.MulAssign | src/utils/mat.rs:161-173 | `*=` by a scalar replaces the matrix with the scaled old one |
| Matrix.MatMut.DivAssign | src/utils/mat.rs:175-187 | `/=` by a non-zero scalar replaces the matrix with the old one divided by it |
| Matrix.MatMut.IndexMut | src/utils/mat.rs:198-203 | writing a row through `&mut m[i]` replaces row i only when i < M; otherwise it panics and nothing changes |
| Matrix.SumCommutes | src/utils/mat.rs:68-76 | a + b == b + a |
| Matrix.SumThenDifference | src/utils/mat.rs:68-94 | (a + b) - b == a: subtraction undoes addition |
| Matrix.SumNegated | src/utils/mat.rs:61-77 | a + (-a) is the zero matrix `new()` |
| Matrix.ScaledThenQuotient | src/utils/mat.rs:97-131 | (a·k)/k == a for every non-zero k |
| Matrix.TransposeTwice | src/utils/mat.rs:247-257 | transposing twice gives back the matrix |
| Matrix.DotIdentityLeft | src/utils/mat.rs:230-240 | the partial sums over k of I[i][k]·b[k][j] are b[i][j] once k has passed i, and 0 before |
| Matrix.DotIdentityRight | src/utils/mat.rs:230-240 | the partial sums over k of a[i][k]·I[k][j] are a[i][j] once k has passed j, and 0 before |
| Matrix.Ext3 | src/utils/mat.rs:1-5 | 3×3 matrices that agree in their nine entries are equal |
| Matrix.Ext4 | src/utils/mat.rs:1-5 | 4×4 matrices that agree in their sixteen entries are equal |
| Matrix.ProductEntry3 | src/utils/mat.rs:230-240 | with inner dimension 3, a product entry is the three-term dot product |
| Matrix.ProductEntry4 | src/utils/mat.rs:230-240 | with inner dimension 4, a product entry is the four-term dot product |
| Matrix.ProductIdentityLeft | src/utils/mat.rs:223-282 | I·A == A |
| Matrix.ProductIdentityRight | src/utils/mat.rs:223-282 | A·I == A |
| Vectors.Row | src/utils/types.rs:3-7 | `Vec::from([[...]])`: a one-row matrix holding the values in order |
| Vectors.RowOfComponents | src/utils/types.rs:3 | every vector is the row of its own components |
| Vectors.SetX | src/utils/types.rs:27-29 | `set_x` replaces component 0 only and keeps the shape |
| Vectors.SetY | src/utils/types.rs:30-32 | `set_y` replaces component 1 only and keeps the shape |
| Vectors.SetZ | src/utils/types.rs:51-53 | `set_z` replaces component 2 only and keeps the shape |
| Vectors.SetW | src/utils/types.rs:78-80 | `set_w` replaces component 3 only and keeps the shape |
| Vectors.SetChangesOneComponent | src/utils/types.rs:20-81 | writing component k sets it, leaves every other component, and gives the row with k replaced |
| Vectors.XY | src/utils/types.rs:93-95 | `xy()` gives the first two components |
| Vectors.YZ | src/utils/types.rs:96-98 | `yz()` gives components 1 and 2 |
| Vectors.ZW | src/utils/types.rs:111-113 | `zw()` gives components 2 and 3 |
| Vectors.XYZ | src/utils/types.rs:114-116 | `xyz()` gives the first three components |
| Vectors.YZW | src/utils/types.rs:117-119 | `yzw()` gives components 1, 2 and 3 |
| Vectors.XYZW | src/utils/types.rs:102-104 | `xyzw()` gives all four components |
| Vectors.ComponentsDetermine | src/utils/types.rs:3 | vectors of one length with the same components are equal |
| Vectors.FullSwizzlesAreIdentity | src/utils/types.rs:83-104 | `xy()` of a Vec2, `xyz()` of a Vec3 and `xyzw()` of a Vec4 are copies of the vector |
| Vectors.Vec3FromVec2Z | src/utils/types.rs:122-127 | `(Vec2, z)` gives a Vec3 whose `xy()` is the Vec2 and whose z is z |
| Vectors.Vec3FromXVec2 | src/utils/types.rs:128-133 | `(x, Vec2)` gives a Vec3 whose x is x and whose `yz()` is the Vec2 |
| Vectors.Vec4FromVec2ZW | src/utils/types.rs:134-139 | `(Vec2, z, w)`: `xy()` is the Vec2, then z and w |
| Vectors.Vec4FromXVec2W | src/utils/types.rs:140-145 | `(x, Vec2, w)`: x, then `yz()` is the Vec2, then w |
| Vectors.Vec4FromXYVec2 | src/utils/types.rs:146-151 | `(x, y, Vec2)`: x and y, then `zw()` is the Vec2 |
| Vectors.Vec4FromVec2Vec2 | src/utils/types.rs:152-157 | `(Vec2, Vec2)`: `xy()` is the first and `zw()` the second |
| Vectors.Vec4FromVec3W | src/utils/types.rs:158-163 | `(Vec3, w)`: `xyz()` is the Vec3, then w |
| Vectors.Vec4FromXVec3 | src/utils/types.rs:164-169 | `(x, Vec3)`: x, then `yzw()` is the Vec3 |
| Vectors.Vec2FromInts | src/utils/types.rs:170-175 | `(i32, i32)` gives the Vec2 of those two integers |
| Vectors.Vec3FromInts | src/utils/types.rs:176-181 | `(i32, i32, i32)` gives the Vec3 of those three integers |
| Vectors.Vec4FromScalars | src/utils/types.rs:182-187 | `(x, y, z, w)` gives the Vec4 of those four values |
| Vectors.FromArray | src/utils/types.rs:188-205 | `[T; 2]`, `[T; 3]` and `[T; 4]` give vectors of that length with the array's values in order |
| Vectors.FromArrayRoundTrip | src/utils/types.rs:188-205 | converting an array to a vector and back gives the one-row array of the same values |
| LegacyMat.MacroElementwise | src/utils/mat/mod.rs:21-82 | the reference result of an elementwise macro: same shape, the rows×cols block holds the operation's value and every other entry is still 0 |
| LegacyMat.Elementwise | src/utils/mat/mod.rs:30-38 | the double loop of `impl_mat_ops_add` (and of sub, mul-by-number, div-by-number, neg at lines 52-60, 71-79, 137-145, 156-164) panics exactly when its bounds leave the matrix, and otherwise builds the reference result |
| LegacyMat.FullElementwise | src/utils/mat/mod.rs:21-167 | with the matrix's own dimensions as bounds, the macros compute the generic sum, difference, scalar product, negation and quotient |
| LegacyMat.MacroAssigned | src/utils/mat/mod.rs:169-227 | the reference result of a `*_assign` macro: the rows×cols block is updated, the rest of `self` is unchanged |
| LegacyMat.ElementwiseAssign | src/utils/mat/mod.rs:173-179 | the in-place loop of `impl_mat_ops_add_assign` (and of the sub, mul and div forms at lines 188-194, 203-209, 218-224) panics exactly when its bounds leave the matrix, and otherwise leaves the reference result |
| LegacyMat.AssignAgreesWithBinary | src/utils/mat/mod.rs:21-227 | inside the bounds `a op= b` writes what `a op b` computes; with full bounds the two agree everywhere |
| LegacyMat.MacroProduct | src/utils/mat/mod.rs:84-110 | the reference result of `impl_mat_mul_mat`: a retM×retN matrix whose rows×cols2 block holds the dot products over `cols` terms |
| LegacyMat.MulMat | src/utils/mat/mod.rs:94-104 | the triple loop panics exactly when its bounds leave one of the three matrices, and otherwise builds the reference result |
| LegacyMat.MacroProductIsProduct | src/utils/mat/mod.rs:107-109 | with the operands' own dimensions as bounds, the macro computes the matrix product |
| LegacyMat.MacroProductColumnsLeftZero | src/utils/mat/mod.rs:94-104 | columns at or past `cols2` stay 0, and the written block holds the dot products |
| LegacyShapes.ShapeNew | src/utils/mat/mat3x2.rs:8-18 | each shape's hand-written `new()` (mat2.rs:8-12, mat3.rs:12-21 and the rest) is a matrix of that shape |
| LegacyShapes.ShapeDefault | src/utils/mat/mat3.rs:23-29 | each shape's `Default` is a matrix of that shape; `Mat2` has no `Default`, and the model substitutes its `zero()` (mat2.rs:14-18) |
| LegacyShapes.ShapeFrom | src/utils/mat/mat3.rs:47-51 | `From<[[T; cols]; rows]>` keeps the array as a matrix of the shape |
| LegacyShapes.Mat2NewAndZero | src/utils/mat/mat2.rs:7-19 | `Mat2::new()` has 1 on the diagonal and 0 off it, `zero()` is all 0, and they differ exactly on the diagonal |
| LegacyShapes.SquareNewIsIdentity | src/utils/mat/mat3.rs:11-21 | the square shapes' `new()` (mat2.rs, mat3.rs, mat4.rs) is the identity |
| LegacyShapes.RectangularNew | src/utils/mat/mat3x2.rs:8-18 | the rectangular `new()` has 1 exactly on the diagonal for 2×3, 2×4, 3×4 and 4×3, but only at (0, 0) for 3×2 and 4×2 |
| LegacyShapes.DefaultIsZero | src/utils/mat/mat4.rs:21-27 | every `Default` is all zeros |
| LegacyShapes.FromKeepsArray | src/utils/mat/mat4x3.rs:45-49 | `From` then `into` gives back the array; the macro `Index` gives row i within the rows and panics past them |
| LegacyShapes.Mat3NewIsUnit | src/utils/mat/mat3.rs:53-57 | `Mat3` instantiates the square product, and `Mat3::new()` is its unit on both sides |
| LegacyShapes.Mat4NewLaws | src/utils/mat/mat4.rs:45-47 | `Mat4` has add, sub and mul-by-number but no neg; `new() + default() == new()`, and `new() * k` has k on the diagonal |
| LegacyProducts.Listed | src/utils/mat/mod.rs:229-256 | instance n of the list is the `impl_mat_mul_mat!` written on line 229 + n, with its types and bounds |
| LegacyProducts.Apply | src/utils/mat/mod.rs:84-110 | `lhs * rhs` through an in-bounds instance is a matrix of its return type |
| LegacyProducts.InBoundsIsMulFits | src/utils/mat/mod.rs:94-104 | on operands of the instance's types, the loop stays inside the matrices exactly when the instance is in bounds |
| LegacyProducts.SoundInstanceIsProduct | src/utils/mat/mod.rs:229-234 | an instance whose types form a product and whose bounds are the types' dimensions computes the matrix product |
| LegacyProducts.ClassifyInstances | src/utils/mat/mod.rs:229-256 | lines 229-246 pair types that form a product and 247-256 do not; lines 229-234 and 247-256 pass the types' dimensions; lines 235-240 pass `cols2 = 1`; exactly lines 242-244, 248-250, 254 and 255 index out of bounds |
| LegacyProducts.ListedTypes | src/utils/mat/mod.rs:229-256 | the types of instance n form a product exactly when n < 18 |
| LegacyProducts.ListedBounds | src/utils/mat/mod.rs:229-256 | the bounds of instance n are its types' dimensions exactly when n < 6 or n ≥ 18 |
| LegacyProducts.ListedColumns | src/utils/mat/mod.rs:235-240 | instance n passes `cols2 = 1` exactly for lines 235-240 |
| LegacyProducts.ListedPanics | src/utils/mat/mod.rs:241-256 | instance n always panics exactly when it is on line 242, 243, 244, 248, 249, 250, 254 or 255 |
| LegacyProducts.OneColumnInstances | src/utils/mat/mod.rs:235-240 | an in-bounds `cols2 = 1` instance computes the first column of the product and leaves every other column 0 |
| LegacyProducts.Line241LeavesLastColumn | src/utils/mat/mod.rs:241 | `Mat2x3 * Mat3x4` through line 241 gets columns 0-2 of the product right and leaves column 3 at 0 |
| LegacyProducts.Line235Counterexample | src/utils/mat/mod.rs:235 | `Mat2x3::new() * Mat3::new()` should be `Mat2x3::new()`, but line 235 gives 0 at (1, 1) |
| LegacyProducts.Corrected | src/utils/mat/mod.rs:229-246 | the evidently intended instance: the same line and types, with bounds that are the types' dimensions |
| LegacyProducts.CorrectedInstancesAreProducts | src/utils/mat/mod.rs:229-246 | every corrected instance computes the matrix product, and the sound lines 229-234 are unchanged by the correction |
| LegacyVec.AddFields | src/utils/vec/mod.rs:9-22 | `impl_vec_ops_add` adds field by field over the listed fields |
| LegacyVec.SubFields | src/utils/vec/mod.rs:24-37 | `impl_vec_ops_sub` subtracts field by field |
| LegacyVec.MulNumberFields | src/utils/vec/mod.rs:39-52 | `impl_vec_ops_mul_number` multiplies every listed field by the number |
| LegacyVec.AddThenSub | src/utils/vec/mod.rs:9-37 | the sub macro undoes the add macro, and the add macro undoes the sub macro |
| LegacyVec.AddCommutes | src/utils/vec/mod.rs:9-22 | the add macro is commutative |
| LegacyVec.MulNumberLaws | src/utils/vec/mod.rs:9-52 | multiplying by a number distributes over the add macro, and multiplying by 1 changes nothing |
| LegacyVec.Vec3.Fields | src/utils/vec/vec3.rs:3-8 | `Vec3`'s field list `x, y, z`, as the macro instances list it |
| LegacyVec.FromFields | src/utils/vec/vec3.rs:3-14 | the struct literal built from three listed fields has those fields |
| LegacyVec.Add | src/utils/vec/vec3.rs:40 | `Vec3 + Vec3` adds x, y and z |
| LegacyVec.Sub | src/utils/vec/vec3.rs:41 | `Vec3 - Vec3` subtracts x, y and z |
| LegacyVec.MulNumber | src/utils/vec/mod.rs:39-52 | what the mul-by-number macro would define for `Vec3`'s fields: x, y and z each multiplied by k; src/utils/vec/vec3.rs never instantiates it |
| LegacyVec.FieldsRoundTrip | src/utils/vec/vec3.rs:3-14 | building a `Vec3` from its own field list gives it back |
| LegacyVec.Vec3Laws | src/utils/vec/vec3.rs:10-14 | `new(x, y, z) + new(0, 0, 0) == new(x, y, z)`, and `(a + b) - b == a` |
| Math.EqWithEpsilon | src/utils/math.rs:10-20 | the loop with its early `return false` answers true exactly when every entry differs by at most epsilon |
| Math.WithinEpsilonReflexive | src/utils/math.rs:10-20 | a matrix is within any non-negative epsilon of itself |
| Math.WithinEpsilonSymmetric | src/utils/math.rs:10-20 | the comparison does not depend on the order of the operands |
| Math.PartialSquares | src/utils/math.rs:29-32 | every partial sum of `v * vᵀ` is non-negative, and zero exactly when the components summed so far are all zero |
| Math.SquaredNorm | src/utils/math.rs:29-32 | the value under the square root of `norm()` is non-negative, and zero exactly for the zero vector |
| Math.Normalize | src/utils/math.rs:42-48 | a vector of norm 0 normalizes to `new()`; any other vector is divided, component by component, by its norm |
| Math.NormalizeZeroVector | src/utils/math.rs:275-280 | the zero vector has norm 0 and normalizes to the zero vector |
| Math.PartialSquaresQuotient | src/utils/math.rs:42-48 | dividing every component by n divides every partial sum of squares by n² |
| Math.NormalizeUnit | src/utils/math.rs:257-273 | a non-zero vector normalizes to a vector of squared norm 1 and norm 1, given a square root that is exact on squares |
| Math.Cross | src/utils/math.rs:57-63 | the three `set_*` calls on `new()` build exactly the cross product |
| Math.CrossExamples | src/utils/math.rs:282-292 | x × y is z, and (1, 2, 3) × (4, 5, 6) is (-3, 6, -3) |
| Math.CrossParallel | src/utils/math.rs:295-301 | a vector crossed with any multiple of itself is the zero vector |
| Math.CrossAnticommutes | src/utils/math.rs:57-63 | b × a == -(a × b) |
| Math.CrossOrthogonal | src/utils/math.rs:57-63 | a × b is perpendicular to a and to b |
| Math.Rotate2 | src/utils/math.rs:75-79 | `rotate2` is a 3×3 homogeneous matrix |
| Math.Translate2 | src/utils/math.rs:90-93 | `tranlate2` is a 3×3 homogeneous matrix |
| Math.Scale2 | src/utils/math.rs:103-106 | `scale2` is a 3×3 homogeneous matrix |
| Math.Rotate2ZeroAngle | src/utils/math.rs:313-321 | a rotation by 0 is the identity |
| Math.Rotate2Compose | src/utils/math.rs:323-331 | when sin and cos satisfy the addition formulas, rotating by b then by a is rotating by a + b |
| Math.Translate2Zero | src/utils/math.rs:343-351 | a translation by the zero vector is the identity |
| Math.Translate2Compose | src/utils/math.rs:90-93 | two translations compose to the translation by the sum |
| Math.Scale2Zero | src/utils/math.rs:363-371 | scaling by the zero vector keeps only the homogeneous 1 |
| Math.Scale2Compose | src/utils/math.rs:103-106 | two scalings compose to the scaling by the componentwise product |
| Math.Translate3 | src/utils/math.rs:145-152 | `tranlate3` is a 4×4 homogeneous matrix |
| Math.Scale3 | src/utils/math.rs:163-170 | `scale3` is a 4×4 homogeneous matrix |
| Math.Rotate3X | src/utils/math.rs:181-190 | `rotate3_x` is a 4×4 homogeneous matrix |
| Math.Rotate3Y | src/utils/math.rs:201-210 | `rotate3_y` is a 4×4 homogeneous matrix |
| Math.Rotate3Z | src/utils/math.rs:221-230 | `rotate3_z` is a 4×4 homogeneous matrix |
| Math.Translate3Zero | src/utils/math.rs:507-512 | a translation by the zero vector is the identity |
| Math.Translate3Compose | src/utils/math.rs:145-152 | two translations compose to the translation by the sum |
| Math.Scale3Zero | src/utils/math.rs:529-536 | scaling by the zero vector keeps only the homogeneous 1 |
| Math.Scale3Diagonal | src/utils/math.rs:163-170 | scaling by (1, 1, 1) is the identity; every scaling is diagonal with 1 in the corner |
| Math.AxisRotationsZeroAngle | src/utils/math.rs:420-425 | rotations about x, y and z by 0 are the identity (the tests at lines 449 and 478 too) |
| Math.AxisRotationsFixTheirAxis | src/utils/math.rs:181-230 | each axis rotation leaves its own axis's row and column as in the identity |
| Math.CrossMatrix | src/utils/math.rs:122-126 | the matrix K of the normalized axis is 3×3 |
| Math.CrossSquare | src/utils/math.rs:127 | the closed form of K·K is 3×3 |
| Math.CrossMatrixSquared | src/utils/math.rs:127 | `k * k` equals the closed form n·nᵀ - |n|²·I written entry by entry |
| Math.RodriguesOf | src/utils/math.rs:127 | `I + K·s + K²·(1 - c)` is 3×3 |
| Math.RodriguesOfOperators | src/utils/math.rs:127 | the entrywise block is the sum of `Mat3::I()`, `k * s` and `(k * k) * (1 - c)` as the generic operators compute them |
| Math.RodriguesBlock | src/utils/math.rs:117-127 | the rotation block for an angle and an axis is 3×3 |
| Math.RodriguesBlockOfAxis | src/utils/math.rs:117-127 | the block is built from the normalized axis and the sine and cosine of the angle |
| Math.Embed | src/utils/math.rs:128-134 | copying the 3×3 block into `Mat4::I()` gives a 4×4 matrix |
| Math.EmbedExt | src/utils/math.rs:128-134 | a 4×4 matrix with the block's entries in its top-left corner and the identity's elsewhere is the embedded block |
| Math.Rotate3 | src/utils/math.rs:117-134 | `rotate3` returns exactly the Rodrigues block of the normalized axis inside the identity |
| Math.Rodrigues | src/utils/math.rs:127 | the line computing `r` gives `I + K·s + (K·K)·(1 - c)` |
| Math.Rotate3Frame | src/utils/math.rs:128-134 | the last row and column of `rotate3`'s result are those of the identity |
| Math.ZeroAxisBlock | src/utils/math.rs:117-134 | with the zero axis, K is zero and the result is the identity |
| Math.Rotate3ZeroAxis | src/utils/math.rs:42-48 | a zero axis normalizes to zero, so `rotate3` about it is the identity for every angle |
| Math.ZeroAngleBlock | src/utils/math.rs:127 | with s = 0 and c = 1 the block is the identity |
| Math.Rotate3ZeroAngle | src/utils/math.rs:389-395 | `rotate3` by angle 0 is the identity, about any axis |
| Math.NormalizeUnitAxis | src/utils/math.rs:42-48 | a vector of norm 1 normalizes to itself |
| Math.AxisBlockX | src/utils/math.rs:181-190 | the Rodrigues block of the x axis, embedded, is `rotate3_x` |
| Math.Rotate3AboutX | src/utils/math.rs:117-190 | `rotate3` about (1, 0, 0) equals `rotate3_x` |
| Math.AxisBlockY | src/utils/math.rs:201-210 | the Rodrigues block of the y axis, embedded, is `rotate3_y` |
| Math.Rotate3AboutY | src/utils/math.rs:117-210 | `rotate3` about (0, 1, 0) equals `rotate3_y` |
| Math.AxisBlockZ | src/utils/math.rs:221-230 | the Rodrigues block of the z axis, embedded, is `rotate3_z` |
| Math.Rotate3AboutZ | src/utils/math.rs:117-230 | `rotate3` about (0, 0, 1) equals `rotate3_z` |
| Transforms.Radian | src/utils/mod.rs:65-67 | `radian(d)` is d·π/180: the result times 180 is d·π |
| Transforms.RadianRightAngle | src/utils/mod.rs:62-63 | 90 degrees is π/2, as the doc example asserts, and 180 degrees is π |
| Transforms.RadianAdditive | src/utils/mod.rs:65-67 | the conversion is additive in the angle |
| Transforms.LookAtTranslation | src/utils/mod.rs:97-102 | the `translation` array is a 4×4 matrix |
| Transforms.LookAtRotation | src/utils/mod.rs:103-108 | the `rotation` array built from the three axes is a 4×4 matrix |
| Transforms.LookAt | src/utils/mod.rs:92-111 | `look_at` is a 4×4 matrix |
| Transforms.TranslationTimesRotation | src/utils/mod.rs:110 | translation times rotation has the axes as rows and -eye, not the eye projected onto the axes, in the last column |
| Transforms.LookAtLayout | src/utils/mod.rs:92-111 | the rows of `look_at` are x, y and z (normalized `eye - target`, normalized `up × z`, and `z × x`) each followed by minus one coordinate of the eye, then (0, 0, 0, 1) |
| Transforms.NormalizeKeepsOrthogonal | src/utils/math.rs:42-48 | normalizing a vector keeps it perpendicular to whatever it was perpendicular to |
| Transforms.LookAtAxesOrthogonal | src/utils/mod.rs:93-95 | the three axes of `look_at` are pairwise perpendicular |
| Transforms.PerspectiveMatrix | src/utils/mod.rs:133-144 | the projection matrix is 4×4 |
| Transforms.Perspective | src/utils/mod.rs:133-144 | starting from zeros and assigning five entries gives exactly the projection matrix |
| Transforms.PerspectiveLayout | src/utils/mod.rs:134-141 | with f = 1/tan(fov/2): entry [0][0] is f/aspect, [1][1] is f, [2][2] and [2][3] are the depth terms, [3][2] is -1, and every other entry is 0 |
| Transforms.PerspectiveDepthRange | src/utils/mod.rs:139-141 | a point at -near maps to depth -1 after the divide by w, and a point at -far maps to +1 |
| CameraMotion.ClampPitch | src/camera/space_camera.rs:85-91 | the two `if`s put the pitch within [-89, 89], keep a pitch already inside, and send one above to 89 and one below to -89 |
| CameraMotion.ClampMonotone | src/camera/space_camera.rs:85-91 | the limit is monotone and a second application changes nothing |
| CameraMotion.ApplyEntry | src/camera/space_camera.rs:40-57 | one key check adds or subtracts `dir * speed` component by component when its key is held, and leaves the position when it is not |
| CameraMotion.ApplyKeepsComponent | src/camera/space_camera.rs:40-57 | a step along a direction with a zero component leaves that component of the position |
| CameraMotion.PairCancels | src/camera/space_camera.rs:40-45 | a `+=` step followed by the `-=` step along the same direction gives back the position |
| CameraMotion.PairCancelsReversed | src/camera/space_camera.rs:40-45 | a `-=` step followed by the `+=` step gives back the position |
| CameraMotion.WalkSix | src/camera/space_camera.rs:40-57 | the six key checks act one after the other, in the source's order |
| CameraSpace.Turned | src/camera/space_camera.rs:59-64 | a homogeneous point times `rotate3_x(radian(pitch)) * rotate3_y(-radian(yaw))` is a 4-vector |
| CameraSpace.ViewOf | src/camera/space_camera.rs:59-65 | the view `update` stores is a 4×4 matrix |
| CameraSpace.BalancedKeysKeepPosition | src/camera/space_camera.rs:40-57 | with no key held, or both keys of every held pair, `update` leaves the position where it was |
| CameraSpace.OneKeyMoves | src/camera/space_camera.rs:40-57 | W alone moves by `front * speed`, S alone by minus that, D and A along right, Space and LeftShift along up |
| CameraSpace.FrontAndRightAreLevel | src/camera/space_camera.rs:37-39 | the walking front and right have zero height component |
| CameraSpace.WalkingKeepsHeight | src/camera/space_camera.rs:36-57 | without Space or LeftShift, moving never changes the height |
| CameraSpace.KeyChecks | src/camera/space_camera.rs:40-57 | the six `if`s move the position exactly as the key steps in order |
| CameraSpace.SpaceCamera.constructor | src/camera/space_camera.rs:103-116 | `new` sets the position, speed and sensitivity, yaw -90, pitch 0, the first-mouse flag, and the identity view |
| CameraSpace.SpaceCamera.ViewMatrix | src/camera/space_camera.rs:26-28 | `view_matrix()` returns the stored view and changes nothing |
| CameraSpace.SpaceCamera.Update | src/camera/space_camera.rs:30-66 | LeftAlt held fixes the camera and returns before moving; otherwise the position follows the keys along the yaw's front and right, the view is recomputed, and the angles and the cursor state are untouched |
| CameraSpace.SpaceCamera.MouseMove | src/camera/space_camera.rs:68-92 | a fixed camera changes nothing; otherwise the first move takes the cursor as the last position, the offsets times `sen` turn yaw and pitch, and the pitch is limited |
| CameraLegacy.KeyChecks | src/camera/mod.rs:33-50 | the six `if`s move the position along front, along `front × up` and along up |
| CameraLegacy.BalancedKeysKeepPosition | src/camera/mod.rs:33-50 | with balanced keys the position comes back unchanged |
| CameraLegacy.OneKeyMoves | src/camera/mod.rs:33-50 | each key alone moves by its own direction times the speed, A and D along `front × up` with opposite signs |
| CameraLegacy.FrontIsUnit | src/camera/mod.rs:78-83 | the rebuilt front has squared norm 1, when sin and cos satisfy sin² + cos² = 1 |
| CameraLegacy.Camera.constructor | src/camera/mod.rs:17-28 | `new` keeps pos, front and up and sets the cursor to 0, the first-mouse flag, yaw -90 and pitch 0 |
| CameraLegacy.Camera.Update | src/camera/mod.rs:30-51 | `update` moves the position by the key checks with speed 2.5·dt and changes nothing else |
| CameraLegacy.Camera.MouseUpdate | src/camera/mod.rs:53-84 | the first call takes the cursor as the last position, so it does not turn the camera; the offsets times 0.1 turn yaw and pitch, the pitch is limited to [-89, 89], and front is rebuilt from the angles |
| CameraLegacy.Camera.ViewMatrix | src/camera/mod.rs:86-88 | `look_at(pos, pos + front, up)`: its last column is -pos and its bottom row is (0, 0, 0, 1) |
| CameraGod.Turned | src/camera/god_camera.rs:28-29 | a homogeneous point times `rotate3_x(radian(pitch)) * rotate3_y(radian(-yaw))` is a 4-vector |
| CameraGod.EyeAsWritten | src/camera/god_camera.rs:26-29 | `pos` as written, the origin times the translation and the turns, is a 4-vector |
| CameraGod.UpOf | src/camera/god_camera.rs:31-33 | the turned up vector is a 4-vector |
| CameraGod.ViewAsWritten | src/camera/god_camera.rs:24-35 | the view `update` computes as written is a 4×4 matrix |
| CameraGod.Eye | src/camera/god_camera.rs:26-29 | the evidently intended eye, (0, 0, 2^x, 1) turned, is a 4-vector |
| CameraGod.View | src/camera/god_camera.rs:24-35 | the view with the intended eye is a 4×4 matrix |
| CameraGod.Degenerate | src/camera/god_camera.rs:34 | the matrix that is 0 everywhere except a 1 in the bottom-right corner is 4×4 |
| CameraGod.AffineKeepsOrigin | src/utils/math.rs:145-152 | a row vector (0, 0, 0, 1) times a matrix whose bottom row is (0, 0, 0, 1) is (0, 0, 0, 1) again |
| CameraGod.EyeIsOrigin | src/camera/god_camera.rs:26-29 | as written, `pos.xyz()` is the origin whatever x, yaw and pitch are |
| CameraGod.NormalizeOfZero | src/utils/math.rs:42-48 | a vector with zero x, y and z normalizes to zero |
| CameraGod.LookAtFromOrigin | src/utils/mod.rs:92-111 | `look_at` from the origin to the origin is the degenerate matrix, whatever up is |
| CameraGod.ViewAsWrittenIsDegenerate | src/camera/god_camera.rs:24-35 | the view `update` stores as written is always the degenerate matrix |
| CameraGod.ViewAsWrittenIgnoresState | src/camera/god_camera.rs:24-35 | as written, the stored view does not depend on zoom, yaw or pitch |
| CameraGod.EyeAtZeroAngles | src/camera/god_camera.rs:26-29 | with zero angles the intended eye is (0, 0, 2^x) |
| CameraGod.EyeComponents | src/camera/god_camera.rs:26-29 | the intended eye's components are (-(d·cos p)·sin y, d·sin p, d·cos p·cos y), with d = 2^x |
| CameraGod.OrbitRadius | src/camera/god_camera.rs:26-29 | the squared components of the intended eye add up to d² |
| CameraGod.EyeOnOrbit | src/camera/god_camera.rs:26-29 | the intended eye is at distance 2^x from the target at the origin, whatever the angles |
| CameraGod.GodCamera.constructor | src/camera/god_camera.rs:67-79 | `new` keeps x, sen and scl, with the identity view, zero angles, the button up and the cursor at 0 |
| CameraGod.GodCamera.ViewMatrix | src/camera/god_camera.rs:20-22 | `view_matrix()` returns the stored view and changes nothing |
| CameraGod.GodCamera.Update | src/camera/god_camera.rs:24-35 | the button state is stored and the view is recomputed as written, which is always the degenerate matrix; zoom, angles and cursor are unchanged |
| CameraGod.GodCamera.UpdateIntended | src/camera/god_camera.rs:24-35 | the corrected `update`: the button state is stored and the view is the orbit view from the intended eye; zoom, angles and cursor are unchanged |
| CameraGod.GodCamera.MouseMove | src/camera/god_camera.rs:37-59 | the cursor is always recorded; only while the button is held do the offsets times `sen` turn yaw and pitch, with the pitch limited |
| CameraGod.GodCamera.MouseScroll | src/camera/god_camera.rs:61-63 | the zoom exponent drops by `yoffset / 2 · scl` and nothing else changes |
| CameraGod.ScrollUndone | src/camera/god_camera.rs:61-63 | scrolling up and then down by the same amount restores the zoom |
| JsonValues.Member | src/model/model.rs:81 | `json[key]` is the member under the key, and `Null` when the key is missing |
| JsonValues.AsStr | src/model/model.rs:81-90 | `as_str()` gives a string exactly for string values |
| JsonValues.AsU32 | src/model/model.rs:111 | `as_u32()` gives a value only for a number that is a whole number below 2^32, and then that number |
| JsonValues.AsU32OfNatural | src/model/model.rs:109-115 | every natural number below 2^32, written as a JSON number, reads back as itself |
| WarnOnce.NameSet.constructor | src/model/mod.rs:41-42 | the set of names already warned about starts empty |
| WarnOnce.NameSet.Report | src/model/mod.rs:106-112 | a miss warns exactly when the name is not yet recorded, and the name is recorded afterwards |
| WarnOnce.WarnsAtMostOnce | src/model/mod.rs:101-115 | over any run of lookups, no name is warned about twice, and the names warned about are exactly the looked-up names that are neither registered nor recorded already |
| WarnOnce.SecondLookupSilent | src/model/mod.rs:106-112 | looking up a missing name twice warns once |
| ElementModels.CollectStops | src/model/model.rs:102-108 | once an element fails, the loop's outcome is that failure whatever follows |
| ElementModels.CollectAll | src/model/model.rs:102-108 | when every element reads as a value, the loop pushes exactly those values in order |
| ElementModels.CollectVertices | src/model/model.rs:102-108 | the vertex loop returns at the first element that is not a number and otherwise collects the numbers in order |
| ElementModels.CollectIndices | src/model/model.rs:109-115 | the index loop returns at the first non-number, panics at the first number that is no `u32`, and otherwise collects the indices in order |
| ElementModels.Validate | src/model/model.rs:66-116 | a validated document is an object whose `name` and `description` are the strings returned and whose `vertices` and `indices` arrays hold exactly the numbers returned |
| ElementModels.ElementsAreRead | src/model/model.rs:102-115 | a successful loop read every element, and element k gave value k |
| ElementModels.ElementsAreReadUpTo | src/model/model.rs:102-115 | the same for the first n elements |
| ElementModels.LoadFromJson | src/model/model.rs:66-116 | the chain of early returns and the two loops give exactly what validation gives |
| ElementModels.LoadFromFile | src/model/model.rs:57-65 | a file that cannot be read, or text that does not parse, is an error carrying the cause; a parsed document is validated |
| ElementModels.ValidateEncode | src/model/model.rs:66-116 | every description whose indices are `u32`s validates back to its name, vertices, indices and description |
| ElementModels.VerticesCheckedFirst | src/model/model.rs:102-115 | every vertex is checked before any index: a bad vertex is reported even when the indices are bad too |
| ElementModels.VertexFailure | src/model/model.rs:102-108 | the first element that is not a number makes the vertex loop fail with its message |
| ElementModels.CollectReads | src/model/model.rs:102-115 | when every element reads, the loop succeeds |
| ElementModels.CollectFirstFailure | src/model/model.rs:102-115 | the first element that fails decides the loop's outcome: its error, or its panic |
| ElementModels.IndexOutOfRangePanics | src/model/model.rs:110-111 | a number that is no `u32`, such as -1 or 0.5, panics on `unwrap()` when the elements before it are valid indices |
| ElementModels.New | src/model/model.rs:15-29 | `new` keeps the vertices and indices and sets up the attribute layout of the description; a description that panics makes `new` panic |
| ElementModels.AsI32 | src/model/model.rs:38 | `len() as i32` is the length taken modulo 2^32 as a two's-complement value, and the length itself below 2^31 |
| ElementModels.DrawCount | src/model/model.rs:33-42 | `DrawElements` is given the number of indices, for any model with fewer than 2^31 indices |
| ArrayModels.Validate | src/model/array_model.rs:47-80 | an array document never panics; a value that is not an object fails the first key check; a validated document has the `name` and `description` strings and the `vertices` numbers returned |
| ArrayModels.VerticesNeverPanic | src/model/array_model.rs:72-78 | the vertex loop can fail but never panics |
| ArrayModels.LoadFromJson | src/model/array_model.rs:47-80 | the early returns and the vertex loop give exactly what validation gives |
| ArrayModels.ValidateEncode | src/model/array_model.rs:47-80 | every array description validates back to its name, vertices and description |
| ArrayModels.IndicesIgnored | src/model/array_model.rs:47-80 | adding, changing or removing `indices` does not change what validation gives |
| ArrayModels.New | src/model/array_model.rs:14-25 | `new` keeps the vertices; the `create_array_model_context` it calls at line 21 is defined nowhere in the repository |
| ArrayModels.DrawCount | src/model/array_model.rs:32 | `DrawArrays` is given `len / 3` as an `i32`: the number of whole triples of values |
| ModelFiles.Dispatch | src/model/model_file.rs:12-36 | a non-object, a missing `type` and a non-string `type` are each their own error; success needs a `type` of "element" or "array", and then the matching validator succeeded and the name is the validated one |
| ModelFiles.LoadModelFile | src/model/model_file.rs:3-37 | a file that cannot be read or parsed is an error carrying the cause; a parsed one is dispatched on its `type` |
| ModelFiles.TypeErrorsDistinct | src/model/model_file.rs:15-35 | the missing-type, invalid-type and unknown-type messages differ from each other and from the not-an-object message |
| ModelFiles.UnknownTypeNamed | src/model/model_file.rs:35 | a `type` that names neither kind is an error whose message ends with that `type` |
| ModelFiles.ElementErrorsPropagate | src/model/model_file.rs:25 | `?` hands the element validator's error or panic to the caller unchanged |
| ModelFiles.ArrayErrorsPropagate | src/model/model_file.rs:32 | `?` hands the array validator's error to the caller unchanged |
| ModelFiles.ElementFileLoads | src/model/model_file.rs:24-30 | a well-formed element file loads under its `name`, with its vertices and indices |
| ModelFiles.ArrayFileLoads | src/model/model_file.rs:31-34 | a well-formed array file loads under its `name`, with its vertices |
| ModelManagers.Added | src/model/mod.rs:21-26 | `add` inserts the new model under the name, keeps every other name as it was, and panics, inserting nothing, when the layout description panics |
| ModelManagers.AddReplaces | src/model/mod.rs:21-26 | adding twice under one name leaves only the second model |
| ModelManagers.ModelManager.constructor | src/model/mod.rs:15-19 | a new manager has no models |
| ModelManagers.ModelManager.Add | src/model/mod.rs:80-82 | `add_model` leaves the registry `add` gives, or reports the panic and changes nothing |
| ModelManagers.ModelManager.Get | src/model/mod.rs:28-30 | `get` finds a model exactly when one is registered under the name, and it is that model |
| ModelManagers.ModelManager.LoadFromJson | src/model/mod.rs:84-94 | a file that fails to load is warned about with the path and the cause and changes nothing; one that loads is added under the `name` it holds |
| ModelManagers.ModelManager.DrawModel | src/model/mod.rs:101-115 | a registered model is drawn with its element count and the set is untouched; a missing one warns only the first time and is recorded |
| ModelManagers.LoadRegistersName | src/model/mod.rs:84-94 | a well-formed file is registered under its `name`, with its vertices and indices |
| Textures.Kept | src/texture/mod.rs:36-70 | an entry yields a texture exactly when the entry, its path and its stem read as text and the image loads, and then it is the loaded texture under the stem |
| Textures.LoadedMeaning | src/texture/mod.rs:35-72 | after the loop a name has a texture exactly when some kept entry has that stem, and it is the texture of the last such entry |
| Textures.BindWarnings | src/texture/mod.rs:108-117 | a run of `bind` calls warns at most once per call |
| Textures.BindWarnsEveryTime | src/texture/mod.rs:108-117 | unlike the shader and model lookups, k calls with the same missing name warn k times |
| Textures.TextureManager.constructor | src/texture/mod.rs:12-16 | a new manager has no textures |
| Textures.TextureManager.LoadFrom | src/texture/mod.rs:26-73 | an unreadable directory changes nothing; otherwise the kept entries are stored under their stems over the old registry, and every other name is kept |
| Textures.TextureManager.Bind | src/texture/mod.rs:108-117 | a registered name binds its texture to the unit, since `unwrap` after `contains_key` cannot fail; any other name is a warning about that name |
| Logging.LevelOrder | src/log.rs:3-9 | the derived order of `Level` is total, with Debug < Info < Warn < Error |
| Logging.Tag | src/log.rs:35-39 | every tag is eight characters, starting with `[` and ending with a space |
| Logging.TagsDistinct | src/log.rs:35-39 | different levels have different tags |
| Logging.Line | src/log.rs:50-55 | a line is as long as its tag, owner, the ` \|: ` separator and the message together |
| Logging.LineParts | src/log.rs:50-55 | a line splits back into its tag, owner, separator and message |
| Logging.LineInjective | src/log.rs:50-55 | two lines whose owners have the same length are equal only when level, owner and message are |
| Logging.Logger.constructor | src/log.rs:17-22 | a new logger has threshold Info and no file |
| Logging.Logger.SetLevel | src/log.rs:24-26 | `set_level` replaces the threshold and keeps the file |
| Logging.Logger.SetFile | src/log.rs:28-30 | `set_file` replaces the file and keeps the threshold |
| Logging.Logger.Log | src/log.rs:32-63 | something is written exactly when the level is at least the threshold; with a file it is the line plus a newline appended to that file, without one it is the line on stderr for an error and on stdout otherwise |
| Logging.DefaultThreshold | src/log.rs:17-22 | a fresh logger drops debug lines and writes every other level; threshold Error writes errors only |
| Logging.FileLineIsConsoleLine | src/log.rs:32-63 | the file's format strings hold the `\n` that the console's leave to `println!` and `eprintln!`, so the file text is the console text plus `\n` |
| Shaders.CodesMeaning | src/shader/mod.rs:48-93 | after the first loop a stem has a source of a stage exactly when some kept entry of that stage's extensions has the stem, and the source is the content of the last such entry |
| Shaders.Classify | src/shader/mod.rs:46-93 | the first loop fills the vertex and fragment maps as the stage's sources by stem |
| Shaders.Linked | src/shader/mod.rs:94-173 | a stem gets a program only when both sources exist and both stages compile, and every stem whose two sources compile and link gets one |
| Shaders.Restrict | src/shader/mod.rs:111-112 | `retain` keeps exactly the stems in the other set, with their sources |
| Shaders.CompileAll | src/shader/mod.rs:115-142 | every kept stem has an entry, holding the outcome of compiling its source |
| Shaders.CompiledStages | src/shader/mod.rs:143-157 | the stems left for linking are those with both stages compiled, each linking to the stem's program; the stems warned about at lines 150-155 are those with exactly one failed stage |
| Shaders.LinkedAmongStep | src/shader/mod.rs:160-173 | linking one more stem adds its program when the link succeeds and nothing otherwise |
| Shaders.MergeUpdate | src/shader/mod.rs:172 | inserting into the programs after a merge is inserting into the merged part |
| Shaders.LinkedIsAdded | src/shader/mod.rs:160-173 | linking every stem with both stages compiled gives exactly the programs of the load |
| Shaders.LinkAll | src/shader/mod.rs:158-173 | the link loop adds exactly the load's programs to the registry |
| Shaders.LinkStems | src/shader/mod.rs:160-173 | whatever order the map iterates in, the loop adds the program of every listed stem whose link succeeds and nothing else |
| Shaders.ShaderManager.constructor | src/shader/mod.rs:13-17 | a new manager has no programs |
| Shaders.ShaderManager.LoadFrom | src/shader/mod.rs:19-174 | an unreadable directory changes nothing; otherwise the programs of the directory are added over the old ones, the stems with one source are those warned about first, and the stems with one failed stage those warned about second |
| Shaders.ShaderManager.Get | src/shader/mod.rs:214-233 | a registered name gives its program and touches no warning; a missing name warns only the first time and is recorded |
| Shaders.LinkedNeedsBothSources | src/shader/mod.rs:94-112 | a stem without a fragment source never gets a program |
| VertexLayout.Split | src/gl_utils.rs:88 | `split` always gives at least one piece |
| VertexLayout.SplitJoin | src/gl_utils.rs:88 | joining the pieces with the separator gives back the text, and no piece holds the separator |
| VertexLayout.JoinSplit | src/gl_utils.rs:88 | joining the pieces with the separator gives back the text |
| VertexLayout.PiecesWithoutSeparator | src/gl_utils.rs:88 | no piece holds the separator |
| VertexLayout.SplitWithoutSeparator | src/gl_utils.rs:88 | text without the separator is one piece |
| VertexLayout.SplitAfterFirst | src/gl_utils.rs:88 | a first piece without the separator is split off, and the rest is split alone |
| VertexLayout.ParseI32 | src/gl_utils.rs:90 | `parse::<GLint>` gives only `i32` values, and fails on empty text |
| VertexLayout.DecimalDigits | src/gl_utils.rs:90 | the decimal text of a number is unsigned digits whose value is the number |
| VertexLayout.ParseDecimal | src/gl_utils.rs:90 | decimal text parses to its value within the `i32` range, negatives down to -2^31 included, and fails above 2^31 - 1 |
| VertexLayout.ParseUnsigned | src/gl_utils.rs:90 | any unsigned digit text parses to its value below 2^31 and fails at or above it |
| VertexLayout.ParseNegative | src/gl_utils.rs:90 | `-` followed by digits parses to minus their value down to -2^31 |
| VertexLayout.TypeOf | src/gl_utils.rs:91-96 | the type letters are exactly `f`, `i` and `b` |
| VertexLayout.ParseToken | src/gl_utils.rs:89-96 | a token reads exactly when it is a number that fits an `i32` followed by a type letter, and then it is that type and size; a bad token panics and never errors, and a token whose last character is more than one byte panics on the byte slice of line 89 |
| VertexLayout.Parsed | src/gl_utils.rs:88-96 | one reading per token |
| VertexLayout.ParsedAt | src/gl_utils.rs:88-96 | entry k of the readings is the reading of token k |
| VertexLayout.ParsedAll | src/gl_utils.rs:88-96 | the readings are the tokens' readings, position by position |
| VertexLayout.Push | src/gl_utils.rs:97-103 | a bad token panics with its reason; a good one pushes its entry at the running offset and advances the offset by its bytes |
| VertexLayout.PushCases | src/gl_utils.rs:89-103 | the outcome of one pass: an empty token is a subtraction overflow panic, a last character longer than one byte a char-boundary panic, then a bad number an `unwrap` panic, a bad type letter `Invalid type id`, an `i32` overflow of the size times the width or of the offset sum a panic, and otherwise the pushed entry |
| VertexLayout.Pointers | src/gl_utils.rs:106-116 | one attribute pointer per entry |
| VertexLayout.PushToken | src/gl_utils.rs:89-103 | one pass reads the token and pushes it as `Push` says |
| VertexLayout.CreateLayout | src/gl_utils.rs:86-116 | the two loops give exactly the layout of the description |
| VertexLayout.CollectEntries | src/gl_utils.rs:86-104 | the first loop gives the entries of every token, or the first token's panic |
| VertexLayout.SetPointers | src/gl_utils.rs:105-116 | the second loop sets exactly the attribute pointers of the entries with their sum as stride |
| VertexLayout.NextEntry | src/gl_utils.rs:88-104 | one more token extends the prefix, and a panic is final |
| VertexLayout.NextPrefix | src/gl_utils.rs:88-104 | pushing token i onto the prefix of i tokens is the prefix of i + 1, and a failure there is the outcome of the whole loop |
| VertexLayout.PanicPersists | src/gl_utils.rs:88-104 | once a pass panics, the rest of the loop does not change the outcome |
| VertexLayout.PrefixMeaning | src/gl_utils.rs:86-104 | a successful prefix of n tokens has n entries, each matching its token at the sum of the previous bytes, and an offset equal to the bytes of all n tokens |
| VertexLayout.EntriesExtend | src/gl_utils.rs:97 | pushing a matching entry keeps the earlier ones matching |
| VertexLayout.BadTokenPanics | src/gl_utils.rs:88-104 | a token that does not read makes the loop panic |
| VertexLayout.NeverErr | src/gl_utils.rs:88-104 | the loop never returns an error, only entries or a panic |
| VertexLayout.GoodTokensSucceed | src/gl_utils.rs:88-104 | when every token reads and the offsets fit an `i32`, the loop succeeds |
| VertexLayout.LayoutMeaning | src/gl_utils.rs:86-116 | a successful layout has one pointer per token, with index k, the token's type and size, the bytes of the earlier tokens as offset, starting at 0, and the bytes of all tokens as stride |
| VertexLayout.BadDescriptionsPanic | src/gl_utils.rs:88-96 | a description with any token that does not read panics |
| VertexLayout.SmallCount | src/gl_utils.rs:89-92 | a one-digit count followed by `f` reads as that many floats |
| VertexLayout.SplitThree | src/gl_utils.rs:88 | "3f;3f;2f" splits into three tokens |
| VertexLayout.PrefixThree | src/gl_utils.rs:97-103 | those tokens give entries at offsets 0, 12 and 24 and a total of 32 bytes |
| VertexLayout.LayoutOfPrefix | src/gl_utils.rs:105-116 | a successful first loop is followed by the pointers of its entries with its total as stride |
| VertexLayout.PointersThree | src/gl_utils.rs:106-116 | the three entries give pointers 0, 1 and 2 with stride 32 |
| VertexLayout.ThreeAttributes | src/gl_utils.rs:86-116 | "3f;3f;2f", the layout of a position, a colour and a texture coordinate, sets three pointers with stride 32 and offsets 0, 12 and 24 |
| VertexLayout.MultiByteLastCharacter | src/gl_utils.rs:89-90 | `"3é"` and `"xé"` panic at the char boundary, not at the type check or the `unwrap`, while `"3f"` reads as three floats |
| VertexLayout.RejectedDescriptions | src/gl_utils.rs:88-96 | a trailing `;` and an unknown type letter panic |
| Vectors.X | src/utils/types.rs:21-23 | reference definition: `x()` is the first component of the row |
| Vectors.Y | src/utils/types.rs:24-26 | reference definition: `y()` is the second component |
| Vectors.Z | src/utils/types.rs:42-44 | reference definition: `z()` is the third component |
| Vectors.W | src/utils/types.rs:66-68 | reference definition: `w()` is the fourth component |
| Math.Close | src/utils/math.rs:14-16 | reference definition: two entries differ by at most epsilon |
| Math.WithinEpsilon | src/utils/math.rs:10-20 | reference definition: `eq_with_epsilon` holds when every pair of entries is close |
| Math.Norm | src/utils/math.rs:29-32 | reference definition: `norm()` is the square root of the row times its transpose |
| Math.CrossProduct | src/utils/math.rs:57-63 | reference definition: `cross` has the components y·z' - z·y', z·x' - x·z' and x·y' - y·x' |
| Math.Copied | src/utils/math.rs:128-132 | reference definition: the entries of `result` after the copy loop has done i rows and j columns of row i |
| Transforms.AxisZ | src/utils/mod.rs:93 | reference definition: `(eye - target).normalize()` |
| Transforms.AxisX | src/utils/mod.rs:94 | reference definition: `up.cross(z).normalize()` |
| Transforms.AxisY | src/utils/mod.rs:95 | reference definition: `z.cross(x)` |
| Transforms.PerspectiveEntry | src/utils/mod.rs:134-141 | reference definition: the five entries `perspective` writes, with f = 1 / tan(fov / 2), and 0 elsewhere |
| CameraMotion.Distance | src/camera/space_camera.rs:36 | reference definition: `speed * dt` |
| CameraMotion.Turn | src/camera/god_camera.rs:37-59 | reference definition: a cursor offset times the sensitivity |
| CameraMotion.Apply | src/camera/space_camera.rs:40-42 | reference definition: one key check, `pos += dir * k` or `pos -= dir * k` when the key is held |
| CameraMotion.Walk | src/camera/space_camera.rs:40-57 | reference definition: the key checks applied in order |
| CameraSpace.Up | src/camera/space_camera.rs:37 | reference definition: `Vec3::from([0.0, 1.0, 0.0])` |
| CameraSpace.Front | src/camera/space_camera.rs:38 | reference definition: the xyz of (0, 0, -1, 1) times `rotate3_y(-radian(yaw))` |
| CameraSpace.Right | src/camera/space_camera.rs:39 | reference definition: `front.cross(up).normalize()` |
| CameraSpace.Steps | src/camera/space_camera.rs:40-57 | reference definition: the six key checks in order, W and S along front, D and A along right, Space and LeftShift along up |
| CameraSpace.Moved | src/camera/space_camera.rs:40-57 | reference definition: the position after those six checks |
| CameraSpace.Advanced | src/camera/space_camera.rs:35-57 | reference definition: the position `update` reaches, with front and right computed from the yaw |
| CameraLegacy.Steps | src/camera/mod.rs:33-50 | reference definition: the six key checks in order, W and S along front, A and D along `front.cross(up)`, Space and LeftShift along up |
| CameraLegacy.Moved | src/camera/mod.rs:33-50 | reference definition: the position after those six checks |
| CameraLegacy.Heading | src/camera/mod.rs:78-82 | reference definition: (cos yaw · cos pitch, sin pitch, sin yaw · cos pitch), angles in radians |
| CameraLegacy.FrontOf | src/camera/mod.rs:78-83 | reference definition: the heading, normalized |
| CameraGod.Origin | src/camera/god_camera.rs:26 | reference definition: `Vec4::from([0.0, 0.0, 0.0, 1.0])` |
| CameraGod.Zoom | src/camera/god_camera.rs:27 | reference definition: `2.0_f32.powf(self.x)` |
| CameraGod.ZoomStep | src/camera/god_camera.rs:62 | reference definition: `yoffset / 2.0 * self.scl` |
| Logging.Rank | src/log.rs:3-9 | reference definition: a level's place in the declaration order |
| Logging.AtLeast | src/log.rs:33 | reference definition: the derived `>=` on levels |
| Logging.Emit | src/log.rs:32-63 | reference definition: what `log` writes, if anything, for a threshold and a file |
| Textures.Loaded | src/texture/mod.rs:35-72 | reference definition: the loop's inserts over the first n entries, a later entry with the same stem winning |
| Shaders.Keeps | src/shader/mod.rs:48-93 | reference definition: the entry and its content were read, and it has a stem and an extension of the stage |
| Shaders.Codes | src/shader/mod.rs:48-93 | reference definition: the inserts of the first loop for one stage, a later entry with the same stem winning |
| Shaders.Compiled | src/shader/mod.rs:144-145 | reference definition: the stems `retain(\|_, shader\| shader.is_some())` keeps |
| Shaders.OneStageFails | src/shader/mod.rs:146-155 | reference definition: the stems with both sources of which exactly one stage compiles |
| Shaders.Program | src/shader/mod.rs:160-172 | reference definition: the program of one stem, when both stages compile and the link succeeds |
| Shaders.LinkedAmong | src/shader/mod.rs:160-173 | reference definition: the programs of the stems linked so far |
| WarnOnce.Warnings | src/shader/mod.rs:214-233 | reference definition: the names a run of lookups warns about, each missing name once (likewise `draw_model` at src/model/mod.rs:101-115) |
| ModelManagers.LoadWarning | src/model/mod.rs:89 | reference definition: the message logged for a file that cannot be loaded |
| ModelFiles.UnknownType | src/model/model_file.rs:35 | reference definition: the error for a `type` that names no model kind |
| JsonValues.HasKey | src/model/model.rs:69 | reference definition: `has_key` holds only for an object with that key |
| JsonValues.Members | src/model/model.rs:102 | reference definition: `members()` is the elements of an array and nothing for any other value |
| ElementModels.ReadVertex | src/model/model.rs:102-108 | reference definition: a number is kept, anything else is the error |
| ElementModels.ReadIndex | src/model/model.rs:109-115 | reference definition: a non-number is the error, and a number that is no `u32` panics |
| ElementModels.Collect | src/model/model.rs:102-115 | reference definition: the loop pushing each element read, stopping at the first that cannot be read |
| ElementModels.Encode | src/model/model.rs:57-116 | reference definition: the description of a model, shaped as the loader expects |
| ArrayModels.Encode | src/model/array_model.rs:47-80 | reference definition: the description of an array model, shaped as the loader expects |
| Matrix.Dot | src/utils/mat.rs:234-236 | reference definition: the sum over k of a[i][k]·b[k][j], in the order of the inner loop |
| LegacyMat.Apply | src/utils/mat/mod.rs:30-38 | reference definition: the value an elementwise macro writes at one entry |
| LegacyShapes.Instances | src/utils/mat/mat3.rs:53-57 | reference definition: the macro invocations at the end of each shape file |
| LegacyProducts.Compatible | src/utils/mat/mod.rs:229-256 | reference definition: the three types form a product, lhs m×k, rhs k×n and ret m×n |
| LegacyProducts.BoundsMatchTypes | src/utils/mat/mod.rs:229-256 | reference definition: the bounds written out are the types' own dimensions |
| LegacyProducts.InBounds | src/utils/mat/mod.rs:94-104 | reference definition: the instance's loops stay inside its three matrices |
| VertexLayout.OneByte | src/gl_utils.rs:89 | reference definition: a character below U+0080, one byte in UTF-8, so that `desc.len() - 1` is a char boundary |
| VertexLayout.Width | src/gl_utils.rs:98-103 | reference definition: the `size_of` of GLfloat, GLint and GLboolean, 4, 4 and 1 |
| VertexLayout.Prefix | src/gl_utils.rs:88-104 | reference definition: the entries and running offset after n tokens, or the panic of the first token that fails |
| VertexLayout.SumBytes | src/gl_utils.rs:98-105 | reference definition: the bytes of the first n tokens |
| VertexLayout.Layout | src/gl_utils.rs:86-116 | reference definition: the attribute pointers set up for a description, or the panic |

## Left out

- Windowing and threads. src/app/ is not part of this model: window creation, the render and poll threads, channels, frame timing, FPS and the resize callback. Neither are src/lib.rs (`RustCraftWrapper`, a mutex wrapper), src/main.rs or src/bin/. The wrapper's locking is left out everywhere: `add_model`, `load_from`, `get`, `bind` and `draw_model` are modelled as plain calls on the wrapped value.
- The GL calls: buffer, vertex-array and texture objects, `DrawElements` and `DrawArrays` themselves, `UseProgram`, and every `SetUniform` and `give` upload. The model keeps the values they are given: the element and vertex counts, and the attribute pointers with their stride.
- `complie_shader` and `link_program` (src/gl_utils.rs:4-54) are a `Gl` parameter whose functions give a GL name, or nothing on failure. This leaves out three panics: in `complie_shader`, `CString::new(source).unwrap()` (src/gl_utils.rs:6) on a source holding a NUL byte and `String::from_utf8(buffer).unwrap()` (src/gl_utils.rs:22) on an error log that is not UTF-8; in `link_program`, the same `String::from_utf8(buffer).unwrap()` (src/gl_utils.rs:47). Likewise `Texture::new_from` (src/texture/texture.rs is not part of this model) is a function from the path to a texture name, or nothing.
- Shader stem loops: `HashMap` iteration order is not modelled. The compile loops build maps, and the link loop picks its next stem nondeterministically. The result is proved the same for every order, up to the GL names the `Gl` parameter assigns: `Gl` gives a name as a function of the stage and the source, where real GL hands out fresh names in call order.
- The text of every warning and debug line the managers log. The model says when a warning is emitted, and about which name or stem. The exact wording is kept only for `ModelManagers.LoadWarning` and for the validators' error messages.
- Filesystem and JSON parsing: `read_dir`, `read_to_string` and the `json` crate's parser. A directory is a sequence of entries, and a model file is a `Document` that failed to read, failed to parse, or parsed to a `Json` value.
- Floating point. Entries are exact reals, so f32 rounding, NaN and infinity are not modelled. `eq_with_epsilon` is stated over exact differences.
- The numeric values of `sin`, `cos`, `tan`, `sqrt` and `π`. The source's unit tests that expect exact π/2 or 2π turns, or `norm() == 5` in f32, are stated only under the trigonometric laws a lemma's `requires` names.
- The logger's console colours. Neither are the `unwrap` panics of opening and writing the log file, nor the process-wide `LOGGER` global and its `debug!` … `error!` macros, which only forward to `log`.
- Shaders.ShaderManager.LoadFrom: does not model the panic of `ext.to_str().unwrap()` and `file_stem().to_str().unwrap()` (src/shader/mod.rs:73, 80) on a name that is not valid UTF-8, because an entry's stem and extension are already text.
- Textures.TextureManager.LoadFrom: an entry whose path is not UTF-8 and one whose stem is not UTF-8 are both skipped, as in the source. The path check at src/texture/mod.rs:45-50 runs before the stem check, but both only `continue`, so their order is not observable.
- ArrayModels.New: `create_array_model_context` (src/model/array_model.rs:20-21) is defined nowhere in the repository, so the description of an array model is not parsed and `New` keeps only the vertices.
- VertexLayout.ParseToken: the char-boundary panic carries the fixed text `byte index is not a char boundary`; the message Rust prints also names the byte index, the character and the token.
- The `Camera` trait, `CAMERA_SYSTEM` and the active-camera registry, which the snapshot's src/camera/mod.rs does not define.
- The `Vec2` and `Vec4` structs of src/utils/vec/vec2.rs and vec4.rs: each holds only a field constructor and GL uploads.
- Matrix.Quotient: requires a non-zero divisor, whereas the source divides by zero and yields infinities or NaN.
- Matrix.DivScalar: requires a non-zero divisor, for the same reason.
- Matrix.MatMut.DivAssign: requires a non-zero divisor, for the same reason.
- Matrix.ScaledThenQuotient: requires a non-zero divisor, for the same reason.
- LegacyMat.MacroElementwise: requires `Op.Defined()`, which excludes the scalar division by zero of the division macro.
- LegacyMat.Elementwise: requires `Op.Defined()`, for the same reason.
- LegacyMat.MacroAssigned: requires `Op.Defined()`, for the same reason.
- LegacyMat.ElementwiseAssign: requires `Op.Defined()`, for the same reason.
- LegacyMat.AssignAgreesWithBinary: requires `Op.Defined()`, for the same reason.
- Transforms.PerspectiveMatrix: requires `tan(fov / 2)`, `aspect` and `near - far` to be non-zero, the three divisors of `perspective`.
- Transforms.Perspective: requires the same three non-zero divisors.
- Transforms.PerspectiveLayout: requires the same three non-zero divisors.
- Transforms.PerspectiveDepthRange: requires the same three non-zero divisors.
- ElementModels.DrawCount: states the count only for fewer than 2^31 indices. `ElementModels.AsI32` gives the wrapped value above that.
- LegacyProducts: the instances on lines 247-256 of src/utils/mat/mod.rs pair types that do not form a product (`Mat2x3 * Mat4x3` and so on). `ClassifyInstances` and `ListedPanics` say which of them panic, but there is no product to correct them to.

## Findings

| source | as written | input that shows it | evidently intended | confidence | as-written member | corrected member |
|---|---|---|---|---|---|---|
| src/utils/mat/mod.rs:235-240 | the six products by a square right-hand matrix pass `cols2 = 1`, so the loop fills only column 0 of the result | `Mat2x3::new() * Mat3::new()` gives [[1, 0, 0], [0, 0, 0]] instead of `Mat2x3::new()` | `cols2` is the right-hand matrix's column count, giving the full product | not executed | LegacyProducts.Line235Counterexample | LegacyProducts.CorrectedInstancesAreProducts |
| src/utils/mat/mod.rs:241-246 | the right-hand dimensions are passed swapped (`rows2`, `cols2` = 4, 3 for a 3×4 operand) | line 241: any `Mat2x3 * Mat3x4` leaves column 3 of the `Mat2x4` at 0; line 242: any `Mat3x4 * Mat4x2` indexes column 2 of a 2-column row and panics | the bounds are the operand types' dimensions | not executed | LegacyProducts.Line241LeavesLastColumn | LegacyProducts.CorrectedInstancesAreProducts |
| src/camera/god_camera.rs:26-29 | `pos` is the origin `(0, 0, 0, 1)` times translations and rotations, all of which fix the origin, so the eye is the origin and `look_at(eye, origin, up)` normalizes zero vectors | any x, yaw and pitch: the view `update` stores is the matrix that is 0 except a 1 in the bottom-right corner | the point `(0, 0, 2^x, 1)` at the zoom distance, turned by pitch and yaw, as the eye of an orbit around the origin (stored by `CameraGod.GodCamera.UpdateIntended`) | not executed | CameraGod.ViewAsWrittenIsDegenerate | CameraGod.EyeOnOrbit |
