/** The vector aliases of src/utils/types.rs.

    `Vec<T, N>` is `Mat<T, 1, N>`: a single row. Component k is entry [0][k].
    The accessors, setters and swizzles that the source writes once per
    vector size are written once here, for every vector long enough. */
module Vectors {
  import opened Matrix

  type Vec2 = v: Mat | v.M == 1 && v.N == 2 witness New(1, 2)
  type Vec3 = v: Mat | v.M == 1 && v.N == 3 witness New(1, 3)
  type Vec4 = v: Mat | v.M == 1 && v.N == 4 witness New(1, 4)

  /** A row vector with at least n components. */
  predicate HasComponents(v: Mat, n: nat) {
    v.M == 1 && n <= v.N
  }

  // ---------------------------------------------------------------------------
  // Accessors (`x()`, `y()`, `z()`, `w()`)
  // ---------------------------------------------------------------------------

  function X(v: Mat): real requires HasComponents(v, 1) { v.data[0][0] }
  function Y(v: Mat): real requires HasComponents(v, 2) { v.data[0][1] }
  function Z(v: Mat): real requires HasComponents(v, 3) { v.data[0][2] }
  function W(v: Mat): real requires HasComponents(v, 4) { v.data[0][3] }

  /** The one-row matrix `Vec::from([[...]])` holding `value` in order. */
  function Row(value: seq<real>): (r: Mat)
    ensures r.M == 1 && r.N == |value|
    ensures forall k | 0 <= k < |value| :: r.data[0][k] == value[k]
  {
    From(1, |value|, [value])
  }

  /** A row vector is the row of its components. */
  lemma RowOfComponents(v: Mat)
    requires v.M == 1
    ensures Row(v.data[0]) == v
  {
    assert v.data == [v.data[0]];
  }

  // ---------------------------------------------------------------------------
  // Setters (`set_x`, `set_y`, `set_z`, `set_w`): `self[0][k] = value`
  // ---------------------------------------------------------------------------

  method SetX(v: MatMut, value: real)
    requires HasComponents(v.value, 1)
    modifies v
    ensures v.value.M == 1 && v.value.N == old(v.value.N)
    ensures v.value.data[0] == old(v.value.data[0])[0 := value]
  {
    v.value := Set(v.value, 0, 0, value);
    RowOfComponents(v.value);
  }

  method SetY(v: MatMut, value: real)
    requires HasComponents(v.value, 2)
    modifies v
    ensures v.value.M == 1 && v.value.N == old(v.value.N)
    ensures v.value.data[0] == old(v.value.data[0])[1 := value]
  {
    v.value := Set(v.value, 0, 1, value);
  }

  method SetZ(v: MatMut, value: real)
    requires HasComponents(v.value, 3)
    modifies v
    ensures v.value.M == 1 && v.value.N == old(v.value.N)
    ensures v.value.data[0] == old(v.value.data[0])[2 := value]
  {
    v.value := Set(v.value, 0, 2, value);
  }

  method SetW(v: MatMut, value: real)
    requires HasComponents(v.value, 4)
    modifies v
    ensures v.value.M == 1 && v.value.N == old(v.value.N)
    ensures v.value.data[0] == old(v.value.data[0])[3 := value]
  {
    v.value := Set(v.value, 0, 3, value);
  }

  /** Writing component k changes that component alone. */
  lemma SetChangesOneComponent(v: Mat, k: nat, value: real)
    requires v.M == 1 && k < v.N
    ensures Set(v, 0, k, value).data[0][k] == value
    ensures forall j | 0 <= j < v.N && j != k :: Set(v, 0, k, value).data[0][j] == v.data[0][j]
    ensures Set(v, 0, k, value) == Row(v.data[0][k := value])
  {
    Ext(Set(v, 0, k, value), Row(v.data[0][k := value]));
  }

  // ---------------------------------------------------------------------------
  // Swizzles
  // ---------------------------------------------------------------------------

  /** `xy()`: on a Vec3 or Vec4 the first two components; on a Vec2, `*self`. */
  function XY(v: Mat): (r: Vec2)
    requires HasComponents(v, 2)
    ensures X(r) == X(v) && Y(r) == Y(v)
  {
    Row([v.data[0][0], v.data[0][1]])
  }

  /** `yz()`: components 1 and 2. */
  function YZ(v: Mat): (r: Vec2)
    requires HasComponents(v, 3)
    ensures X(r) == Y(v) && Y(r) == Z(v)
  {
    Row([v.data[0][1], v.data[0][2]])
  }

  /** `zw()`: components 2 and 3. */
  function ZW(v: Mat): (r: Vec2)
    requires HasComponents(v, 4)
    ensures X(r) == Z(v) && Y(r) == W(v)
  {
    Row([v.data[0][2], v.data[0][3]])
  }

  /** `xyz()`: on a Vec4 the first three components; on a Vec3, `*self`. */
  function XYZ(v: Mat): (r: Vec3)
    requires HasComponents(v, 3)
    ensures X(r) == X(v) && Y(r) == Y(v) && Z(r) == Z(v)
  {
    Row([v.data[0][0], v.data[0][1], v.data[0][2]])
  }

  /** `yzw()`: components 1, 2 and 3. */
  function YZW(v: Mat): (r: Vec3)
    requires HasComponents(v, 4)
    ensures X(r) == Y(v) && Y(r) == Z(v) && Z(r) == W(v)
  {
    Row([v.data[0][1], v.data[0][2], v.data[0][3]])
  }

  /** `xyzw()` on a Vec4: `*self`. */
  function XYZW(v: Vec4): (r: Vec4)
    ensures X(r) == X(v) && Y(r) == Y(v) && Z(r) == Z(v) && W(r) == W(v)
  {
    Row([v.data[0][0], v.data[0][1], v.data[0][2], v.data[0][3]])
  }

  /** A vector is determined by its components. */
  lemma ComponentsDetermine(u: Mat, v: Mat)
    requires u.M == v.M == 1 && u.N == v.N
    requires forall k | 0 <= k < u.N :: u.data[0][k] == v.data[0][k]
    ensures u == v
  {
    Ext(u, v);
  }

  /** The full-width swizzles are the identity: `Vec2::xy`, `Vec3::xyz` and
      `Vec4::xyzw` return `*self`. */
  lemma FullSwizzlesAreIdentity(v2: Vec2, v3: Vec3, v4: Vec4)
    ensures XY(v2) == v2
    ensures XYZ(v3) == v3
    ensures XYZW(v4) == v4
  {
    ComponentsDetermine(XY(v2), v2);
    ComponentsDetermine(XYZ(v3), v3);
    ComponentsDetermine(XYZW(v4), v4);
  }

  // ---------------------------------------------------------------------------
  // Concatenating constructors (`From` on tuples and arrays)
  // ---------------------------------------------------------------------------

  /** `From<(Vec2, T)> for Vec3`. */
  function Vec3FromVec2Z(v: Vec2, z: real): (r: Vec3)
    ensures XY(r) == v && Z(r) == z
  {
    ComponentsDetermine(XY(Row([X(v), Y(v), z])), v);
    Row([X(v), Y(v), z])
  }

  /** `From<(T, Vec2)> for Vec3`. */
  function Vec3FromXVec2(x: real, v: Vec2): (r: Vec3)
    ensures X(r) == x && YZ(r) == v
  {
    ComponentsDetermine(YZ(Row([x, X(v), Y(v)])), v);
    Row([x, X(v), Y(v)])
  }

  /** `From<(Vec2, T, T)> for Vec4`. */
  function Vec4FromVec2ZW(v: Vec2, z: real, w: real): (r: Vec4)
    ensures XY(r) == v && Z(r) == z && W(r) == w
  {
    ComponentsDetermine(XY(Row([X(v), Y(v), z, w])), v);
    Row([X(v), Y(v), z, w])
  }

  /** `From<(T, Vec2, T)> for Vec4`. */
  function Vec4FromXVec2W(x: real, v: Vec2, w: real): (r: Vec4)
    ensures X(r) == x && YZ(r) == v && W(r) == w
  {
    ComponentsDetermine(YZ(Row([x, X(v), Y(v), w])), v);
    Row([x, X(v), Y(v), w])
  }

  /** `From<(T, T, Vec2)> for Vec4`. */
  function Vec4FromXYVec2(x: real, y: real, v: Vec2): (r: Vec4)
    ensures X(r) == x && Y(r) == y && ZW(r) == v
  {
    ComponentsDetermine(ZW(Row([x, y, X(v), Y(v)])), v);
    Row([x, y, X(v), Y(v)])
  }

  /** `From<(Vec2, Vec2)> for Vec4`. */
  function Vec4FromVec2Vec2(v1: Vec2, v2: Vec2): (r: Vec4)
    ensures XY(r) == v1 && ZW(r) == v2
  {
    ComponentsDetermine(XY(Row([X(v1), Y(v1), X(v2), Y(v2)])), v1);
    ComponentsDetermine(ZW(Row([X(v1), Y(v1), X(v2), Y(v2)])), v2);
    Row([X(v1), Y(v1), X(v2), Y(v2)])
  }

  /** `From<(Vec3, T)> for Vec4`. */
  function Vec4FromVec3W(v: Vec3, w: real): (r: Vec4)
    ensures XYZ(r) == v && W(r) == w
  {
    ComponentsDetermine(XYZ(Row([X(v), Y(v), Z(v), w])), v);
    Row([X(v), Y(v), Z(v), w])
  }

  /** `From<(T, Vec3)> for Vec4`. */
  function Vec4FromXVec3(x: real, v: Vec3): (r: Vec4)
    ensures X(r) == x && YZW(r) == v
  {
    ComponentsDetermine(YZW(Row([x, X(v), Y(v), Z(v)])), v);
    Row([x, X(v), Y(v), Z(v)])
  }

  /** The range of Rust's `i32`. */
  predicate IsI32(n: int) {
    -0x8000_0000 <= n < 0x8000_0000
  }

  /** `From<(i32, i32)> for Vec2<i32>`. */
  function Vec2FromInts(x: int, y: int): (r: Vec2)
    requires IsI32(x) && IsI32(y)
    ensures X(r) == x as real && Y(r) == y as real
  {
    Row([x as real, y as real])
  }

  /** `From<(i32, i32, i32)> for Vec3<i32>`. */
  function Vec3FromInts(x: int, y: int, z: int): (r: Vec3)
    requires IsI32(x) && IsI32(y) && IsI32(z)
    ensures X(r) == x as real && Y(r) == y as real && Z(r) == z as real
  {
    Row([x as real, y as real, z as real])
  }

  /** `From<(T, T, T, T)> for Vec4`. */
  function Vec4FromScalars(x: real, y: real, z: real, w: real): (r: Vec4)
    ensures X(r) == x && Y(r) == y && Z(r) == z && W(r) == w
  {
    Row([x, y, z, w])
  }

  /** `From<[T; 2]>`, `From<[T; 3]>` and `From<[T; 4]>`: component k is value[k]. */
  function FromArray(value: seq<real>): (r: Mat)
    requires 2 <= |value| <= 4
    ensures HasComponents(r, |value|) && r.N == |value|
    ensures X(r) == value[0] && Y(r) == value[1]
    ensures |value| >= 3 ==> Z(r) == value[2]
    ensures |value| == 4 ==> W(r) == value[3]
  {
    Row(value)
  }

  /** Reading a vector back into an array gives the array it came from. */
  lemma FromArrayRoundTrip(value: seq<real>)
    requires 2 <= |value| <= 4
    ensures Into(FromArray(value)) == [value]
  {
  }
}
