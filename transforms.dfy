/** src/utils/mod.rs: `radian`, the view matrix `look_at` and the projection
    matrix `perspective`. */
module Transforms {
  import opened Matrix
  import opened Vectors
  import opened Math

  // ---------------------------------------------------------------------------
  // radian
  // ---------------------------------------------------------------------------

  /** `radian(degrees) = degrees · π / 180`. */
  function Radian(lib: Libm, degrees: real): (r: real)
    ensures r * 180.0 == degrees * lib.pi
  {
    degrees * lib.pi / 180.0
  }

  /** A right angle is π/2 and a straight angle is π. */
  lemma RadianRightAngle(lib: Libm)
    ensures Radian(lib, 90.0) == lib.pi / 2.0
    ensures Radian(lib, 180.0) == lib.pi
  {
  }

  /** The conversion is linear in the angle. */
  lemma RadianAdditive(lib: Libm, a: real, b: real)
    ensures Radian(lib, a + b) == Radian(lib, a) + Radian(lib, b)
  {
  }

  // ---------------------------------------------------------------------------
  // look_at
  // ---------------------------------------------------------------------------

  /** The `translation` array of `look_at`: the identity with -eye in the last column. */
  function LookAtTranslation(eye: Vec3): (r: Mat)
    ensures r.M == 4 && r.N == 4
  {
    From(4, 4, [
      [1.0, 0.0, 0.0, -X(eye)],
      [0.0, 1.0, 0.0, -Y(eye)],
      [0.0, 0.0, 1.0, -Z(eye)],
      [0.0, 0.0, 0.0, 1.0]])
  }

  /** The `rotation` array of `look_at`: rows x, y and z, then (0, 0, 0, 1). */
  function LookAtRotation(x: Vec3, y: Vec3, z: Vec3): (r: Mat)
    ensures r.M == 4 && r.N == 4
  {
    From(4, 4, [
      [X(x), Y(x), Z(x), 0.0],
      [X(y), Y(y), Z(y), 0.0],
      [X(z), Y(z), Z(z), 0.0],
      [0.0, 0.0, 0.0, 1.0]])
  }

  /** The camera's backward axis: `(eye - target).normalize()`. */
  function AxisZ(lib: Libm, eye: Vec3, target: Vec3): Vec3 {
    Normalize(lib, Difference(eye, target))
  }

  /** The camera's right axis: `up.cross(z).normalize()`. */
  function AxisX(lib: Libm, eye: Vec3, target: Vec3, up: Vec3): Vec3 {
    Normalize(lib, CrossProduct(up, AxisZ(lib, eye, target)))
  }

  /** The camera's up axis: `z.cross(x)`. */
  function AxisY(lib: Libm, eye: Vec3, target: Vec3, up: Vec3): Vec3 {
    CrossProduct(AxisZ(lib, eye, target), AxisX(lib, eye, target, up))
  }

  /** `look_at(eye, target, up)`: `Mat4::from(translation) * Mat4::from(rotation)`. */
  function LookAt(lib: Libm, eye: Vec3, target: Vec3, up: Vec3): (r: Mat)
    ensures r.M == 4 && r.N == 4
  {
    var z := AxisZ(lib, eye, target);
    var x := AxisX(lib, eye, target, up);
    var y := AxisY(lib, eye, target, up);
    Product(LookAtTranslation(eye), LookAtRotation(x, y, z))
  }

  /** The translation times the rotation: the rotation block is kept, the
      last column holds -eye unrotated, and the bottom row is (0, 0, 0, 1). */
  lemma TranslationTimesRotation(eye: Vec3, x: Vec3, y: Vec3, z: Vec3)
    ensures Product(LookAtTranslation(eye), LookAtRotation(x, y, z)) == From(4, 4, [
      [X(x), Y(x), Z(x), -X(eye)],
      [X(y), Y(y), Z(y), -Y(eye)],
      [X(z), Y(z), Z(z), -Z(eye)],
      [0.0, 0.0, 0.0, 1.0]])
  {
    var t, q := LookAtTranslation(eye), LookAtRotation(x, y, z);
    ProductEntry4(t, q, 0, 0); ProductEntry4(t, q, 0, 1); ProductEntry4(t, q, 0, 2); ProductEntry4(t, q, 0, 3);
    ProductEntry4(t, q, 1, 0); ProductEntry4(t, q, 1, 1); ProductEntry4(t, q, 1, 2); ProductEntry4(t, q, 1, 3);
    ProductEntry4(t, q, 2, 0); ProductEntry4(t, q, 2, 1); ProductEntry4(t, q, 2, 2); ProductEntry4(t, q, 2, 3);
    ProductEntry4(t, q, 3, 0); ProductEntry4(t, q, 3, 1); ProductEntry4(t, q, 3, 2); ProductEntry4(t, q, 3, 3);
    Ext4(Product(t, q), From(4, 4, [
      [X(x), Y(x), Z(x), -X(eye)],
      [X(y), Y(y), Z(y), -Y(eye)],
      [X(z), Y(z), Z(z), -Z(eye)],
      [0.0, 0.0, 0.0, 1.0]]));
  }

  /** The layout of `look_at`'s result: rows x, y, z in the upper-left 3×3,
      -eye (not rotated) in the first three entries of the last column, and
      (0, 0, 0, 1) as the bottom row. */
  lemma LookAtLayout(lib: Libm, eye: Vec3, target: Vec3, up: Vec3)
    ensures var r, x, y, z := LookAt(lib, eye, target, up), AxisX(lib, eye, target, up), AxisY(lib, eye, target, up), AxisZ(lib, eye, target);
      && r.data[0] == [X(x), Y(x), Z(x), -X(eye)]
      && r.data[1] == [X(y), Y(y), Z(y), -Y(eye)]
      && r.data[2] == [X(z), Y(z), Z(z), -Z(eye)]
      && r.data[3] == [0.0, 0.0, 0.0, 1.0]
  {
    TranslationTimesRotation(eye, AxisX(lib, eye, target, up), AxisY(lib, eye, target, up), AxisZ(lib, eye, target));
  }

  /** Normalizing a vector orthogonal to w keeps it orthogonal to w. */
  lemma NormalizeKeepsOrthogonal(lib: Libm, c: Vec3, w: Vec3)
    requires Dot3(c, w) == 0.0
    ensures Dot3(Normalize(lib, c), w) == 0.0
  {
    var n := Norm(lib, c);
    if n != 0.0 {
      var u: Vec3 := Normalize(lib, c);
      assert X(u) == X(c) / n && Y(u) == Y(c) / n && Z(u) == Z(c) / n;
      assert Dot3(u, w) * n == Dot3(c, w);
      ZeroFactor(Dot3(u, w), n);
    }
  }

  /** The three axes of `look_at` are pairwise orthogonal. */
  lemma LookAtAxesOrthogonal(lib: Libm, eye: Vec3, target: Vec3, up: Vec3)
    ensures var x, y, z := AxisX(lib, eye, target, up), AxisY(lib, eye, target, up), AxisZ(lib, eye, target);
      Dot3(x, z) == 0.0 && Dot3(z, y) == 0.0 && Dot3(x, y) == 0.0
  {
    var z := AxisZ(lib, eye, target);
    CrossOrthogonal(up, z);
    assert Dot3(CrossProduct(up, z), z) == 0.0;
    NormalizeKeepsOrthogonal(lib, CrossProduct(up, z), z);
    CrossOrthogonal(z, AxisX(lib, eye, target, up));
  }

  // ---------------------------------------------------------------------------
  // perspective
  // ---------------------------------------------------------------------------

  /** The non-zero entries of `perspective(fov, aspect, z_near, z_far)`, with
      f = 1 / tan(fov / 2). */
  function PerspectiveEntry(f: real, aspect: real, near: real, far: real, i: int, j: int): real
    requires aspect != 0.0 && near != far
  {
    if i == 0 && j == 0 then f / aspect
    else if i == 1 && j == 1 then f
    else if i == 2 && j == 2 then (far + near) / (near - far)
    else if i == 2 && j == 3 then (2.0 * far * near) / (near - far)
    else if i == 3 && j == 2 then -1.0
    else 0.0
  }

  /** The projection matrix: only [0][0], [1][1], [2][2], [2][3] and [3][2] are set. */
  function PerspectiveMatrix(lib: Libm, fov: real, aspect: real, near: real, far: real): (r: Mat)
    requires lib.tan(fov / 2.0) != 0.0 && aspect != 0.0 && near != far
    ensures r.M == 4 && r.N == 4
  {
    var f := 1.0 / lib.tan(fov / 2.0);
    RawMat(4, 4, seq(4, i => seq(4, j => PerspectiveEntry(f, aspect, near, far, i, j))))
  }

  /** `perspective`: starts from `[[0.0; 4]; 4]` and assigns five entries. */
  method Perspective(lib: Libm, fov: real, aspect: real, near: real, far: real) returns (r: Mat)
    requires lib.tan(fov / 2.0) != 0.0 && aspect != 0.0 && near != far
    ensures r == PerspectiveMatrix(lib, fov, aspect, near, far)
  {
    var f := 1.0 / lib.tan(fov / 2.0);
    var result := New(4, 4);
    result := Set(result, 0, 0, f / aspect);
    result := Set(result, 1, 1, f);
    result := Set(result, 2, 2, (far + near) / (near - far));
    result := Set(result, 2, 3, (2.0 * far * near) / (near - far));
    result := Set(result, 3, 2, -1.0);
    r := result;
    Ext(r, PerspectiveMatrix(lib, fov, aspect, near, far));
  }

  /** The layout of the projection matrix: five entries set, every other
      entry, [3][3] included, 0. */
  lemma PerspectiveLayout(lib: Libm, fov: real, aspect: real, near: real, far: real)
    requires lib.tan(fov / 2.0) != 0.0 && aspect != 0.0 && near != far
    ensures var r, f := PerspectiveMatrix(lib, fov, aspect, near, far), 1.0 / lib.tan(fov / 2.0);
      && r.data[0][0] == f / aspect && r.data[1][1] == f
      && r.data[2][2] == (far + near) / (near - far)
      && r.data[2][3] == (2.0 * far * near) / (near - far)
      && r.data[3][2] == -1.0 && r.data[3][3] == 0.0
      && forall i, j | 0 <= i < 4 && 0 <= j < 4 && !(i == j < 3) && !(i == 2 && j == 3) && !(i == 3 && j == 2) ::
           r.data[i][j] == 0.0
  {
  }

  /** The depth row maps the near plane to -1 and the far plane to +1 after
      the division by w: a point at z = -near has clip z -near and w near,
      a point at z = -far has clip z far and w far. */
  lemma PerspectiveDepthRange(lib: Libm, fov: real, aspect: real, near: real, far: real)
    requires lib.tan(fov / 2.0) != 0.0 && aspect != 0.0 && near != far
    ensures var r := PerspectiveMatrix(lib, fov, aspect, near, far);
      && r.data[2][2] * -near + r.data[2][3] == -near && r.data[3][2] * -near == near
      && r.data[2][2] * -far + r.data[2][3] == far && r.data[3][2] * -far == far
  {
    var r := PerspectiveMatrix(lib, fov, aspect, near, far);
    var d := near - far;
    var a, b := (far + near) / d, (2.0 * far * near) / d;
    assert a * d == far + near && b * d == 2.0 * far * near;
    assert (a * -near + b) * d == -near * d;
    assert (a * -far + b) * d == far * d;
    ZeroFactor(a * -near + b - -near, d);
    ZeroFactor(a * -far + b - far, d);
  }
}
