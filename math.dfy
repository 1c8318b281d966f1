/** src/utils/math.rs: epsilon comparison, norm, cross product and the
    homogeneous 2-D and 3-D transformation matrices.

    The f32 functions `sqrt`, `sin`, `cos`, `tan` and `powf` are not modelled: they are the
    fields of a `Libm` value passed in, and a lemma that needs one of their
    values says so in its `requires`. */
module Math {
  import opened Matrix
  import opened Vectors

  /** The floating-point library functions the code calls, and `f32::consts::PI`;
      `powf(b, e)` is `b.powf(e)`. */
  datatype Libm = Libm(sqrt: real -> real, sin: real -> real, cos: real -> real, tan: real -> real,
                       powf: (real, real) -> real, pi: real)

  /** `sqrt` behaves as a square root on the non-negative reals. */
  ghost predicate SqrtSound(lib: Libm) {
    forall x: real | 0.0 <= x :: 0.0 <= lib.sqrt(x) && lib.sqrt(x) * lib.sqrt(x) == x
  }

  function Abs(x: real): real { if x < 0.0 then -x else x }

  /** Two entries differ by at most epsilon. */
  predicate Close(x: real, y: real, epsilon: real) { Abs(x - y) <= epsilon }

  // ---------------------------------------------------------------------------
  // eq_with_epsilon
  // ---------------------------------------------------------------------------

  /** Every pair of corresponding entries differs by at most epsilon. */
  predicate WithinEpsilon(a: Mat, b: Mat, epsilon: real)
    requires a.M == b.M && a.N == b.N
  {
    forall i, j | 0 <= i < a.M && 0 <= j < a.N :: Close(a.data[i][j], b.data[i][j], epsilon)
  }

  /** `eq_with_epsilon`: scans row by row and returns false at the first entry
      whose difference exceeds epsilon. */
  method EqWithEpsilon(a: Mat, b: Mat, epsilon: real) returns (r: bool)
    requires a.M == b.M && a.N == b.N
    ensures r == WithinEpsilon(a, b, epsilon)
  {
    for i := 0 to a.M
      invariant forall p, q | 0 <= p < i && 0 <= q < a.N :: Close(a.data[p][q], b.data[p][q], epsilon)
    {
      for j := 0 to a.N
        invariant forall p, q | 0 <= p < a.M && 0 <= q < a.N && (p < i || (p == i && q < j)) ::
          Close(a.data[p][q], b.data[p][q], epsilon)
      {
        var diff := a.data[i][j] - b.data[i][j];
        if Abs(diff) > epsilon {
          return false;
        }
      }
    }
    return true;
  }

  /** A matrix is within any non-negative epsilon of itself. */
  lemma WithinEpsilonReflexive(a: Mat, epsilon: real)
    requires 0.0 <= epsilon
    ensures WithinEpsilon(a, a, epsilon)
  {
  }

  /** Closeness within epsilon is symmetric. */
  lemma WithinEpsilonSymmetric(a: Mat, b: Mat, epsilon: real)
    requires a.M == b.M && a.N == b.N
    ensures WithinEpsilon(a, b, epsilon) == WithinEpsilon(b, a, epsilon)
  {
  }

  // ---------------------------------------------------------------------------
  // norm and normalize
  // ---------------------------------------------------------------------------

  /** Partial sums of the squares of the first K components are never
      negative, and vanish exactly when those components are all 0. */
  lemma {:induction false} PartialSquares(v: Mat, K: nat)
    requires v.M == 1 && K <= v.N
    ensures Dot(v, Transposed(v), 0, 0, K) >= 0.0
    ensures Dot(v, Transposed(v), 0, 0, K) == 0.0 <==> forall k | 0 <= k < K :: v.data[0][k] == 0.0
  {
    if K > 0 {
      PartialSquares(v, K - 1);
      var x := v.data[0][K - 1];
      assert Transposed(v).data[K - 1][0] == x;
      assert Dot(v, Transposed(v), 0, 0, K) == Dot(v, Transposed(v), 0, 0, K - 1) + x * x;
      assert x * x >= 0.0;
      if x != 0.0 {
        assert x * x > 0.0;
      }
    }
  }

  /** `(*self * self.transpose())[0][0]`: the sum of the squared components. */
  function SquaredNorm(v: Mat): (r: real)
    requires v.M == 1
    ensures r >= 0.0
    ensures r == 0.0 <==> forall k | 0 <= k < v.N :: v.data[0][k] == 0.0
  {
    PartialSquares(v, v.N);
    Product(v, Transposed(v)).data[0][0]
  }

  /** `norm()`. */
  function Norm(lib: Libm, v: Mat): real
    requires v.M == 1
  {
    lib.sqrt(SquaredNorm(v))
  }

  /** `normalize()`: a zero norm gives `Self::new()`, the zero vector;
      otherwise every component is divided by the norm. */
  function Normalize(lib: Libm, v: Mat): (r: Mat)
    requires v.M == 1
    ensures r.M == 1 && r.N == v.N
    ensures Norm(lib, v) == 0.0 ==> r == New(1, v.N)
    ensures Norm(lib, v) != 0.0 ==> forall k | 0 <= k < v.N :: r.data[0][k] == v.data[0][k] / Norm(lib, v)
  {
    var n := Norm(lib, v);
    if n == 0.0 then New(1, v.N) else Quotient(v, n)
  }

  /** The zero vector normalizes to the zero vector (norm sqrt(0) is 0). */
  lemma NormalizeZeroVector(lib: Libm, v: Mat)
    requires v.M == 1 && lib.sqrt(0.0) == 0.0
    requires forall k | 0 <= k < v.N :: v.data[0][k] == 0.0
    ensures Norm(lib, v) == 0.0
    ensures Normalize(lib, v) == New(1, v.N)
  {
  }

  /** Dividing every component by n divides the partial sums of squares by n². */
  lemma {:induction false} PartialSquaresQuotient(v: Mat, n: real, K: nat)
    requires v.M == 1 && n != 0.0 && K <= v.N
    ensures Dot(Quotient(v, n), Transposed(Quotient(v, n)), 0, 0, K) * (n * n) == Dot(v, Transposed(v), 0, 0, K)
  {
    if K > 0 {
      PartialSquaresQuotient(v, n, K - 1);
      var q := Quotient(v, n);
      var x := v.data[0][K - 1];
      assert Transposed(q).data[K - 1][0] == q.data[0][K - 1] == x / n;
      assert Transposed(v).data[K - 1][0] == x;
      ScaledSquareStep(Dot(q, Transposed(q), 0, 0, K - 1), Dot(v, Transposed(v), 0, 0, K - 1), x, n);
    }
  }

  /** The arithmetic of one induction step: if dq·n² == dv then
      (dq + (x/n)²)·n² == dv + x². */
  lemma ScaledSquareStep(dq: real, dv: real, x: real, n: real)
    requires n != 0.0 && dq * (n * n) == dv
    ensures (dq + (x / n) * (x / n)) * (n * n) == dv + x * x
  {
    var y := x / n;
    assert y * n == x;
    assert (y * y) * (n * n) == (y * n) * (y * n);
    assert (dq + y * y) * (n * n) == dq * (n * n) + (y * y) * (n * n);
  }

  /** A product with a non-zero factor vanishes only when the other factor does. */
  lemma ZeroFactor(x: real, y: real)
    requires x * y == 0.0 && y != 0.0
    ensures x == 0.0
  {
    assert x == (x * y) / y;
  }

  /** A sound `sqrt` maps 1 to 1. */
  lemma SqrtOne(lib: Libm)
    requires SqrtSound(lib)
    ensures lib.sqrt(1.0) == 1.0
  {
    var y := lib.sqrt(1.0);
    assert 0.0 <= y && y * y == 1.0;
    assert (y - 1.0) * (y + 1.0) == y * y - 1.0;
    ZeroFactor(y - 1.0, y + 1.0);
  }

  /** If t·m == s with m == s != 0, then t == 1. */
  lemma UnitFactor(t: real, m: real, s: real)
    requires t * m == s && m == s && s != 0.0
    ensures t == 1.0
  {
    assert (t - 1.0) * s == t * s - s;
    ZeroFactor(t - 1.0, s);
  }

  /** With a sound `sqrt`, a non-zero vector normalizes to unit length. */
  lemma NormalizeUnit(lib: Libm, v: Mat)
    requires v.M == 1 && SqrtSound(lib)
    requires exists k | 0 <= k < v.N :: v.data[0][k] != 0.0
    ensures SquaredNorm(Normalize(lib, v)) == 1.0
    ensures Norm(lib, Normalize(lib, v)) == 1.0
  {
    var s := SquaredNorm(v);
    var n := Norm(lib, v);
    assert s > 0.0;
    assert n * n == s;
    assert n != 0.0;
    PartialSquaresQuotient(v, n, v.N);
    var u := Normalize(lib, v);
    assert u == Quotient(v, n);
    var t := SquaredNorm(u);
    assert t == Dot(u, Transposed(u), 0, 0, v.N);
    assert s == Dot(v, Transposed(v), 0, 0, v.N);
    UnitFactor(t, n * n, s);
    SqrtOne(lib);
  }

  // ---------------------------------------------------------------------------
  // cross
  // ---------------------------------------------------------------------------

  /** The component formula of the cross product. */
  function CrossProduct(a: Vec3, b: Vec3): (r: Vec3)
  {
    Row([Y(a) * Z(b) - Z(a) * Y(b), Z(a) * X(b) - X(a) * Z(b), X(a) * Y(b) - Y(a) * X(b)])
  }

  /** `cross`: starts from `Self::new()` and writes the three components with the setters. */
  method Cross(a: Vec3, b: Vec3) returns (r: Vec3)
    ensures r == CrossProduct(a, b)
  {
    var result := new MatMut(New(1, 3));
    SetX(result, Y(a) * Z(b) - Z(a) * Y(b));
    SetY(result, Z(a) * X(b) - X(a) * Z(b));
    SetZ(result, X(a) * Y(b) - Y(a) * X(b));
    r := result.value;
    ComponentsDetermine(r, CrossProduct(a, b));
  }

  /** The inner product of two Vec3s. */
  function Dot3(a: Vec3, b: Vec3): real {
    X(a) * X(b) + Y(a) * Y(b) + Z(a) * Z(b)
  }

  /** e_x × e_y == e_z, and (1, 2, 3) × (4, 5, 6) == (-3, 6, -3). */
  lemma CrossExamples()
    ensures CrossProduct(Row([1.0, 0.0, 0.0]), Row([0.0, 1.0, 0.0])) == Row([0.0, 0.0, 1.0])
    ensures CrossProduct(Row([1.0, 2.0, 3.0]), Row([4.0, 5.0, 6.0])) == Row([-3.0, 6.0, -3.0])
  {
    ComponentsDetermine(CrossProduct(Row([1.0, 0.0, 0.0]), Row([0.0, 1.0, 0.0])), Row([0.0, 0.0, 1.0]));
    ComponentsDetermine(CrossProduct(Row([1.0, 2.0, 3.0]), Row([4.0, 5.0, 6.0])), Row([-3.0, 6.0, -3.0]));
  }

  /** A vector crossed with a multiple of itself is the zero vector. */
  lemma CrossParallel(v: Vec3, k: real)
    ensures CrossProduct(v, Scaled(v, k)) == New(1, 3)
  {
    ComponentsDetermine(CrossProduct(v, Scaled(v, k)), New(1, 3));
  }

  /** Swapping the factors negates the cross product. */
  lemma CrossAnticommutes(a: Vec3, b: Vec3)
    ensures CrossProduct(b, a) == Negated(CrossProduct(a, b))
  {
    ComponentsDetermine(CrossProduct(b, a), Negated(CrossProduct(a, b)));
  }

  /** The cross product is orthogonal to both factors. */
  lemma CrossOrthogonal(a: Vec3, b: Vec3)
    ensures Dot3(a, CrossProduct(a, b)) == 0.0
    ensures Dot3(b, CrossProduct(a, b)) == 0.0
  {
    var c := CrossProduct(a, b);
    assert X(c) == Y(a) * Z(b) - Z(a) * Y(b);
    assert Y(c) == Z(a) * X(b) - X(a) * Z(b);
    assert Z(c) == X(a) * Y(b) - Y(a) * X(b);
  }

  // ---------------------------------------------------------------------------
  // 2-D homogeneous transforms (3×3)
  // ---------------------------------------------------------------------------

  /** `rotate2(angle)`. */
  function Rotate2(lib: Libm, angle: real): (r: Mat)
    ensures r.M == 3 && r.N == 3
  {
    var c := lib.cos(angle);
    var s := lib.sin(angle);
    From(3, 3, [[c, -s, 0.0], [s, c, 0.0], [0.0, 0.0, 1.0]])
  }

  /** `tranlate2(v)`: the identity with the offset in the last column. */
  function Translate2(v: Vec2): (r: Mat)
    ensures r.M == 3 && r.N == 3
  {
    From(3, 3, [[1.0, 0.0, X(v)], [0.0, 1.0, Y(v)], [0.0, 0.0, 1.0]])
  }

  /** `scale2(v)`: the factors on the diagonal, then 1. */
  function Scale2(v: Vec2): (r: Mat)
    ensures r.M == 3 && r.N == 3
  {
    From(3, 3, [[X(v), 0.0, 0.0], [0.0, Y(v), 0.0], [0.0, 0.0, 1.0]])
  }

  /** With cos 0 == 1 and sin 0 == 0, `rotate2(0.0)` is the identity. */
  lemma Rotate2ZeroAngle(lib: Libm)
    requires lib.cos(0.0) == 1.0 && lib.sin(0.0) == 0.0
    ensures Rotate2(lib, 0.0) == Identity(3)
  {
    Ext(Rotate2(lib, 0.0), Identity(3));
  }

  /** Given the angle-addition formulas for a and b, rotating by b then by a
      is rotating by a + b. */
  lemma Rotate2Compose(lib: Libm, a: real, b: real)
    requires lib.cos(a + b) == lib.cos(a) * lib.cos(b) - lib.sin(a) * lib.sin(b)
    requires lib.sin(a + b) == lib.sin(a) * lib.cos(b) + lib.cos(a) * lib.sin(b)
    ensures Product(Rotate2(lib, a), Rotate2(lib, b)) == Rotate2(lib, a + b)
  {
    var ra, rb := Rotate2(lib, a), Rotate2(lib, b);
    ProductEntry3(ra, rb, 0, 0); ProductEntry3(ra, rb, 0, 1); ProductEntry3(ra, rb, 0, 2);
    ProductEntry3(ra, rb, 1, 0); ProductEntry3(ra, rb, 1, 1); ProductEntry3(ra, rb, 1, 2);
    ProductEntry3(ra, rb, 2, 0); ProductEntry3(ra, rb, 2, 1); ProductEntry3(ra, rb, 2, 2);
    Ext3(Product(ra, rb), Rotate2(lib, a + b));
  }

  /** A zero offset gives the identity: `tranlate2(Vec2::new())`. */
  lemma Translate2Zero()
    ensures Translate2(New(1, 2)) == Identity(3)
  {
    Ext(Translate2(New(1, 2)), Identity(3));
  }

  /** Translations compose by adding their offsets. */
  lemma Translate2Compose(u: Vec2, v: Vec2)
    ensures Product(Translate2(u), Translate2(v)) == Translate2(Sum(u, v))
  {
    forall i, j | 0 <= i < 3 && 0 <= j < 3
      ensures Product(Translate2(u), Translate2(v)).data[i][j] == Translate2(Sum(u, v)).data[i][j]
    {
      ProductEntry3(Translate2(u), Translate2(v), i, j);
    }
    Ext(Product(Translate2(u), Translate2(v)), Translate2(Sum(u, v)));
  }

  /** Zero factors leave only the bottom-right 1. */
  lemma Scale2Zero()
    ensures forall i, j | 0 <= i < 3 && 0 <= j < 3 ::
      Scale2(New(1, 2)).data[i][j] == (if i == 2 && j == 2 then 1.0 else 0.0)
  {
  }

  /** Scalings compose by multiplying their factors. */
  lemma Scale2Compose(u: Vec2, v: Vec2)
    ensures Product(Scale2(u), Scale2(v)) == Scale2(Row([X(u) * X(v), Y(u) * Y(v)]))
  {
    var w := Row([X(u) * X(v), Y(u) * Y(v)]);
    forall i, j | 0 <= i < 3 && 0 <= j < 3
      ensures Product(Scale2(u), Scale2(v)).data[i][j] == Scale2(w).data[i][j]
    {
      ProductEntry3(Scale2(u), Scale2(v), i, j);
    }
    Ext(Product(Scale2(u), Scale2(v)), Scale2(w));
  }

  // ---------------------------------------------------------------------------
  // 3-D homogeneous transforms (4×4)
  // ---------------------------------------------------------------------------

  /** `tranlate3(v)`. */
  function Translate3(v: Vec3): (r: Mat)
    ensures r.M == 4 && r.N == 4
  {
    From(4, 4, [
      [1.0, 0.0, 0.0, X(v)],
      [0.0, 1.0, 0.0, Y(v)],
      [0.0, 0.0, 1.0, Z(v)],
      [0.0, 0.0, 0.0, 1.0]])
  }

  /** `scale3(v)`. */
  function Scale3(v: Vec3): (r: Mat)
    ensures r.M == 4 && r.N == 4
  {
    From(4, 4, [
      [X(v), 0.0, 0.0, 0.0],
      [0.0, Y(v), 0.0, 0.0],
      [0.0, 0.0, Z(v), 0.0],
      [0.0, 0.0, 0.0, 1.0]])
  }

  /** `rotate3_x(angle)`. */
  function Rotate3X(lib: Libm, angle: real): (r: Mat)
    ensures r.M == 4 && r.N == 4
  {
    var c := lib.cos(angle);
    var s := lib.sin(angle);
    From(4, 4, [
      [1.0, 0.0, 0.0, 0.0],
      [0.0, c, -s, 0.0],
      [0.0, s, c, 0.0],
      [0.0, 0.0, 0.0, 1.0]])
  }

  /** `rotate3_y(angle)`. */
  function Rotate3Y(lib: Libm, angle: real): (r: Mat)
    ensures r.M == 4 && r.N == 4
  {
    var c := lib.cos(angle);
    var s := lib.sin(angle);
    From(4, 4, [
      [c, 0.0, s, 0.0],
      [0.0, 1.0, 0.0, 0.0],
      [-s, 0.0, c, 0.0],
      [0.0, 0.0, 0.0, 1.0]])
  }

  /** `rotate3_z(angle)`. */
  function Rotate3Z(lib: Libm, angle: real): (r: Mat)
    ensures r.M == 4 && r.N == 4
  {
    var c := lib.cos(angle);
    var s := lib.sin(angle);
    From(4, 4, [
      [c, -s, 0.0, 0.0],
      [s, c, 0.0, 0.0],
      [0.0, 0.0, 1.0, 0.0],
      [0.0, 0.0, 0.0, 1.0]])
  }

  /** A zero offset gives the identity: `tranlate3(Vec3::new())`. */
  lemma Translate3Zero()
    ensures Translate3(New(1, 3)) == Identity(4)
  {
    Ext(Translate3(New(1, 3)), Identity(4));
  }

  /** Translations compose by adding their offsets, so translating by -v undoes v. */
  lemma Translate3Compose(u: Vec3, v: Vec3)
    ensures Product(Translate3(u), Translate3(v)) == Translate3(Sum(u, v))
  {
    forall i, j | 0 <= i < 4 && 0 <= j < 4
      ensures Product(Translate3(u), Translate3(v)).data[i][j] == Translate3(Sum(u, v)).data[i][j]
    {
      ProductEntry4(Translate3(u), Translate3(v), i, j);
    }
    Ext(Product(Translate3(u), Translate3(v)), Translate3(Sum(u, v)));
  }

  /** Zero factors leave only the bottom-right 1. */
  lemma Scale3Zero()
    ensures forall i, j | 0 <= i < 4 && 0 <= j < 4 ::
      Scale3(New(1, 3)).data[i][j] == (if i == 3 && j == 3 then 1.0 else 0.0)
  {
  }

  /** Unit factors give the identity, and scaling applies each factor to its axis. */
  lemma Scale3Diagonal(v: Vec3)
    ensures Scale3(Row([1.0, 1.0, 1.0])) == Identity(4)
    ensures forall i, j | 0 <= i < 4 && 0 <= j < 4 && i != j :: Scale3(v).data[i][j] == 0.0
    ensures Scale3(v).data[3][3] == 1.0
  {
    Ext(Scale3(Row([1.0, 1.0, 1.0])), Identity(4));
  }

  /** With cos 0 == 1 and sin 0 == 0, the three axis rotations at angle 0 are the identity. */
  lemma AxisRotationsZeroAngle(lib: Libm)
    requires lib.cos(0.0) == 1.0 && lib.sin(0.0) == 0.0
    ensures Rotate3X(lib, 0.0) == Identity(4)
    ensures Rotate3Y(lib, 0.0) == Identity(4)
    ensures Rotate3Z(lib, 0.0) == Identity(4)
  {
    Ext(Rotate3X(lib, 0.0), Identity(4));
    Ext(Rotate3Y(lib, 0.0), Identity(4));
    Ext(Rotate3Z(lib, 0.0), Identity(4));
  }

  /** Each axis rotation keeps its own axis: that row and that column are the
      identity's, and so are row 3 and column 3. */
  lemma AxisRotationsFixTheirAxis(lib: Libm, angle: real)
    ensures forall k | 0 <= k < 4 ::
      Rotate3X(lib, angle).data[0][k] == Identity(4).data[0][k] &&
      Rotate3X(lib, angle).data[k][0] == Identity(4).data[k][0]
    ensures forall k | 0 <= k < 4 ::
      Rotate3Y(lib, angle).data[1][k] == Identity(4).data[1][k] &&
      Rotate3Y(lib, angle).data[k][1] == Identity(4).data[k][1]
    ensures forall k | 0 <= k < 4 ::
      Rotate3Z(lib, angle).data[2][k] == Identity(4).data[2][k] &&
      Rotate3Z(lib, angle).data[k][2] == Identity(4).data[k][2]
  {
  }

  // ---------------------------------------------------------------------------
  // rotate3: Rodrigues' formula about an arbitrary axis
  // ---------------------------------------------------------------------------

  /** The cross-product matrix K of the axis n. */
  function CrossMatrix(n: Vec3): (r: Mat)
    ensures r.M == 3 && r.N == 3
  {
    From(3, 3, [
      [0.0, -Z(n), Y(n)],
      [Z(n), 0.0, -X(n)],
      [-Y(n), X(n), 0.0]])
  }

  /** n·nᵀ - |n|²·I: the closed form of K². */
  function CrossSquare(n: Vec3): (r: Mat)
    ensures r.M == 3 && r.N == 3
  {
    var x, y, z := X(n), Y(n), Z(n);
    From(3, 3, [
      [-(y * y + z * z), x * y, x * z],
      [x * y, -(x * x + z * z), y * z],
      [x * z, y * z, -(x * x + y * y)]])
  }

  lemma CrossMatrixSquared(n: Vec3)
    ensures Product(CrossMatrix(n), CrossMatrix(n)) == CrossSquare(n)
  {
    var k := CrossMatrix(n);
    ProductEntry3(k, k, 0, 0); ProductEntry3(k, k, 0, 1); ProductEntry3(k, k, 0, 2);
    ProductEntry3(k, k, 1, 0); ProductEntry3(k, k, 1, 1); ProductEntry3(k, k, 1, 2);
    ProductEntry3(k, k, 2, 0); ProductEntry3(k, k, 2, 1); ProductEntry3(k, k, 2, 2);
    Ext3(Product(k, k), CrossSquare(n));
  }

  /** I + K·s + K2·(1 - c), entry by entry, where K2 is the square of K. */
  function RodriguesOf(k: Mat, k2: Mat, s: real, c: real): (r: Mat)
    requires k.M == 3 && k.N == 3 && k2.M == 3 && k2.N == 3
    ensures r.M == 3 && r.N == 3
  {
    RawMat(3, 3, seq(3, i requires 0 <= i < 3 => seq(3, j requires 0 <= j < 3 =>
      (if i == j then 1.0 else 0.0) + k.data[i][j] * s + k2.data[i][j] * (1.0 - c))))
  }

  /** The entrywise form is the operator expression `I + k * s + k2 * (1 - c)`. */
  lemma RodriguesOfOperators(k: Mat, k2: Mat, s: real, c: real)
    requires k.M == 3 && k.N == 3 && k2.M == 3 && k2.N == 3
    ensures RodriguesOf(k, k2, s, c) == Sum(Sum(Identity(3), Scaled(k, s)), Scaled(k2, 1.0 - c))
  {
    Ext(RodriguesOf(k, k2, s, c), Sum(Sum(Identity(3), Scaled(k, s)), Scaled(k2, 1.0 - c)));
  }

  /** `Mat3::I() + k * s + (k * k) * (1.0 - c)` for the normalized axis. */
  function RodriguesBlock(lib: Libm, angle: real, axis: Vec3): (r: Mat)
    ensures r.M == 3 && r.N == 3
  {
    var k := CrossMatrix(Normalize(lib, axis));
    RodriguesOf(k, Product(k, k), lib.sin(angle), lib.cos(angle))
  }

  /** The Rodrigues block of a normalized axis n uses K and its closed-form square. */
  lemma RodriguesBlockOfAxis(lib: Libm, angle: real, axis: Vec3, n: Vec3)
    requires Normalize(lib, axis) == n
    ensures RodriguesBlock(lib, angle, axis) == RodriguesOf(CrossMatrix(n), CrossSquare(n), lib.sin(angle), lib.cos(angle))
  {
    CrossMatrixSquared(n);
  }

  /** `Mat4::I()` with its upper-left 3×3 replaced by `block`. */
  function Embed(block: Mat): (r: Mat)
    requires block.M == 3 && block.N == 3
    ensures r.M == 4 && r.N == 4
  {
    RawMat(4, 4, seq(4, i requires 0 <= i < 4 => seq(4, j requires 0 <= j < 4 =>
      if i < 3 && j < 3 then block.data[i][j] else if i == j then 1.0 else 0.0)))
  }

  /** A 4×4 matrix whose last row and column are the identity's and whose
      upper-left 3×3 is `block` is `Embed(block)`. */
  lemma EmbedExt(block: Mat, t: Mat)
    requires block.M == 3 && block.N == 3 && t.M == 4 && t.N == 4
    requires t.data[0][0] == block.data[0][0] && t.data[0][1] == block.data[0][1] && t.data[0][2] == block.data[0][2]
    requires t.data[1][0] == block.data[1][0] && t.data[1][1] == block.data[1][1] && t.data[1][2] == block.data[1][2]
    requires t.data[2][0] == block.data[2][0] && t.data[2][1] == block.data[2][1] && t.data[2][2] == block.data[2][2]
    requires t.data[0][3] == 0.0 && t.data[1][3] == 0.0 && t.data[2][3] == 0.0
    requires t.data[3][0] == 0.0 && t.data[3][1] == 0.0 && t.data[3][2] == 0.0 && t.data[3][3] == 1.0
    ensures Embed(block) == t
  {
    Ext(Embed(block), t);
  }

  /** Loop state of the copy in `rotate3`: the block entries before (i, j),
      row by row, are copied; every other entry is still the identity's. */
  ghost predicate Copied(r: Mat, block: Mat, i: nat, j: nat)
    requires r.M == 4 && r.N == 4 && block.M == 3 && block.N == 3
  {
    forall p, q | 0 <= p < 4 && 0 <= q < 4 ::
      r.data[p][q] == (if p < 3 && q < 3 && (p < i || (p == i && q < j)) then block.data[p][q]
                       else if p == q then 1.0 else 0.0)
  }

  /** `rotate3(angle, axis)`: starts from `Mat4::I()`, normalizes the axis,
      forms the Rodrigues block with the matrix operators and copies it in. */
  method Rotate3(lib: Libm, angle: real, axis: Vec3) returns (r: Mat)
    ensures r == Embed(RodriguesBlock(lib, angle, axis))
  {
    var result := I(4);
    var n := Normalize(lib, axis);
    var c := lib.cos(angle);
    var s := lib.sin(angle);
    var k := CrossMatrix(n);
    var block := Rodrigues(k, s, c);
    for i := 0 to 3
      invariant result.M == 4 && result.N == 4
      invariant Copied(result, block, i, 0)
    {
      for j := 0 to 3
        invariant result.M == 4 && result.N == 4
        invariant Copied(result, block, i, j)
      {
        result := Set(result, i, j, block.data[i][j]);
      }
    }
    r := result;
    EmbedExt(block, r);
  }

  /** `Mat3::I() + k * s + (k * k) * (1.0 - c)`, with the operator methods. */
  method Rodrigues(k: Mat, s: real, c: real) returns (block: Mat)
    requires k.M == 3 && k.N == 3
    ensures block == RodriguesOf(k, Product(k, k), s, c)
  {
    var ks := MulScalar(k, s);
    var kk := Mul(k, k);
    var kkc := MulScalar(kk, 1.0 - c);
    var i3 := I(3);
    var partial := Add(i3, ks);
    block := Add(partial, kkc);
    RodriguesOfOperators(k, kk, s, c);
  }

  /** `rotate3` only writes the upper-left 3×3: row 3 and column 3 stay (0, 0, 0, 1). */
  lemma Rotate3Frame(lib: Libm, angle: real, axis: Vec3)
    ensures forall k | 0 <= k < 4 ::
      Embed(RodriguesBlock(lib, angle, axis)).data[3][k] == Identity(4).data[3][k] &&
      Embed(RodriguesBlock(lib, angle, axis)).data[k][3] == Identity(4).data[k][3]
  {
  }

  /** With K == 0 and K² == 0 the block is I, whatever the angle. */
  lemma ZeroAxisBlock(s: real, c: real)
    ensures Embed(RodriguesOf(CrossMatrix(New(1, 3)), CrossSquare(New(1, 3)), s, c)) == Identity(4)
  {
    var b := RodriguesOf(CrossMatrix(New(1, 3)), CrossSquare(New(1, 3)), s, c);
    Ext3(b, Identity(3));
    EmbedExt(b, Identity(4));
  }

  /** A zero axis normalizes to zero, so K == 0 and `rotate3` is the identity. */
  lemma Rotate3ZeroAxis(lib: Libm, angle: real)
    requires lib.sqrt(0.0) == 0.0
    ensures Embed(RodriguesBlock(lib, angle, New(1, 3))) == Identity(4)
  {
    var axis := New(1, 3);
    NormalizeZeroVector(lib, axis);
    RodriguesBlockOfAxis(lib, angle, axis, axis);
    ZeroAxisBlock(lib.sin(angle), lib.cos(angle));
  }

  /** With s == 0 and c == 1 the block is I, whatever K. */
  lemma ZeroAngleBlock(k: Mat, k2: Mat)
    requires k.M == 3 && k.N == 3 && k2.M == 3 && k2.N == 3
    ensures Embed(RodriguesOf(k, k2, 0.0, 1.0)) == Identity(4)
  {
    var b := RodriguesOf(k, k2, 0.0, 1.0);
    Ext3(b, Identity(3));
    EmbedExt(b, Identity(4));
  }

  /** With cos 0 == 1 and sin 0 == 0, `rotate3(0.0, axis)` is the identity for every axis. */
  lemma Rotate3ZeroAngle(lib: Libm, axis: Vec3)
    requires lib.cos(0.0) == 1.0 && lib.sin(0.0) == 0.0
    ensures Embed(RodriguesBlock(lib, 0.0, axis)) == Identity(4)
  {
    var n := Normalize(lib, axis);
    RodriguesBlockOfAxis(lib, 0.0, axis, n);
    ZeroAngleBlock(CrossMatrix(n), CrossSquare(n));
  }

  /** A unit axis needs `sqrt(1) == 1` to normalize to itself. */
  lemma NormalizeUnitAxis(lib: Libm, e: Vec3)
    requires lib.sqrt(1.0) == 1.0
    requires X(e) * X(e) + Y(e) * Y(e) + Z(e) * Z(e) == 1.0
    ensures Normalize(lib, e) == e
  {
    var et := Transposed(e);
    ProductEntry3(e, et, 0, 0);
    assert et.data[0][0] == X(e) && et.data[1][0] == Y(e) && et.data[2][0] == Z(e);
    assert Product(e, et).data[0][0] == X(e) * X(e) + Y(e) * Y(e) + Z(e) * Z(e);
    assert SquaredNorm(e) == Product(e, et).data[0][0];
    ComponentsDetermine(Normalize(lib, e), e);
  }

  /** The Rodrigues block of the unit x axis is the upper-left 3×3 of `rotate3_x`. */
  lemma AxisBlockX(lib: Libm, angle: real)
    ensures var e := Row([1.0, 0.0, 0.0]);
      Embed(RodriguesOf(CrossMatrix(e), CrossSquare(e), lib.sin(angle), lib.cos(angle))) == Rotate3X(lib, angle)
  {
    var e := Row([1.0, 0.0, 0.0]);
    var s, c := lib.sin(angle), lib.cos(angle);
    var t := From(3, 3, [[1.0, 0.0, 0.0], [0.0, c, -s], [0.0, s, c]]);
    Ext3(RodriguesOf(CrossMatrix(e), CrossSquare(e), s, c), t);
    EmbedExt(t, Rotate3X(lib, angle));
  }

  /** About the x axis, `rotate3` is `rotate3_x`. */
  lemma Rotate3AboutX(lib: Libm, angle: real)
    requires lib.sqrt(1.0) == 1.0
    ensures Embed(RodriguesBlock(lib, angle, Row([1.0, 0.0, 0.0]))) == Rotate3X(lib, angle)
  {
    var e := Row([1.0, 0.0, 0.0]);
    NormalizeUnitAxis(lib, e);
    RodriguesBlockOfAxis(lib, angle, e, e);
    AxisBlockX(lib, angle);
  }

  /** The Rodrigues block of the unit y axis is the upper-left 3×3 of `rotate3_y`. */
  lemma AxisBlockY(lib: Libm, angle: real)
    ensures var e := Row([0.0, 1.0, 0.0]);
      Embed(RodriguesOf(CrossMatrix(e), CrossSquare(e), lib.sin(angle), lib.cos(angle))) == Rotate3Y(lib, angle)
  {
    var e := Row([0.0, 1.0, 0.0]);
    var s, c := lib.sin(angle), lib.cos(angle);
    var t := From(3, 3, [[c, 0.0, s], [0.0, 1.0, 0.0], [-s, 0.0, c]]);
    Ext3(RodriguesOf(CrossMatrix(e), CrossSquare(e), s, c), t);
    EmbedExt(t, Rotate3Y(lib, angle));
  }

  /** About the y axis, `rotate3` is `rotate3_y`. */
  lemma Rotate3AboutY(lib: Libm, angle: real)
    requires lib.sqrt(1.0) == 1.0
    ensures Embed(RodriguesBlock(lib, angle, Row([0.0, 1.0, 0.0]))) == Rotate3Y(lib, angle)
  {
    var e := Row([0.0, 1.0, 0.0]);
    NormalizeUnitAxis(lib, e);
    RodriguesBlockOfAxis(lib, angle, e, e);
    AxisBlockY(lib, angle);
  }

  /** The Rodrigues block of the unit z axis is the upper-left 3×3 of `rotate3_z`. */
  lemma AxisBlockZ(lib: Libm, angle: real)
    ensures var e := Row([0.0, 0.0, 1.0]);
      Embed(RodriguesOf(CrossMatrix(e), CrossSquare(e), lib.sin(angle), lib.cos(angle))) == Rotate3Z(lib, angle)
  {
    var e := Row([0.0, 0.0, 1.0]);
    var s, c := lib.sin(angle), lib.cos(angle);
    var t := From(3, 3, [[c, -s, 0.0], [s, c, 0.0], [0.0, 0.0, 1.0]]);
    Ext3(RodriguesOf(CrossMatrix(e), CrossSquare(e), s, c), t);
    EmbedExt(t, Rotate3Z(lib, angle));
  }

  /** About the z axis, `rotate3` is `rotate3_z`. */
  lemma Rotate3AboutZ(lib: Libm, angle: real)
    requires lib.sqrt(1.0) == 1.0
    ensures Embed(RodriguesBlock(lib, angle, Row([0.0, 0.0, 1.0]))) == Rotate3Z(lib, angle)
  {
    var e := Row([0.0, 0.0, 1.0]);
    NormalizeUnitAxis(lib, e);
    RodriguesBlockOfAxis(lib, angle, e, e);
    AxisBlockZ(lib, angle);
  }
}
