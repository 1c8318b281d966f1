/** src/utils/mat/mod.rs:229-256: the hand-listed cross-shape products of the
    older matrix generation, as data, and what each instance computes. */
module LegacyProducts {
  import opened Matrix
  import opened LegacyMat
  import opened LegacyShapes

  /** One `impl_mat_mul_mat!(lhs, rows, cols, rhs, rows2, cols2, ret)` line. */
  datatype MulInstance = MulInstance(line: nat, lhs: Shape, rows: nat, cols: nat, rhs: Shape, rows2: nat, cols2: nat, ret: Shape)

  /** Instance n of the list, on line 229 + n. */
  function Listed(n: nat): (r: MulInstance)
    requires n < 28
    ensures r.line == 229 + n
  {
    match n
    case 0 => MulInstance(229, Mat2x3, 2, 3, Mat3x2, 3, 2, Mat2)
    case 1 => MulInstance(230, Mat3x4, 3, 4, Mat4x3, 4, 3, Mat3)
    case 2 => MulInstance(231, Mat2x4, 2, 4, Mat4x2, 4, 2, Mat2)
    case 3 => MulInstance(232, Mat4x3, 4, 3, Mat3x4, 3, 4, Mat4)
    case 4 => MulInstance(233, Mat3x2, 3, 2, Mat2x3, 2, 3, Mat3)
    case 5 => MulInstance(234, Mat4x2, 4, 2, Mat2x4, 2, 4, Mat4)
    case 6 => MulInstance(235, Mat2x3, 2, 3, Mat3, 3, 1, Mat2x3)
    case 7 => MulInstance(236, Mat3x4, 3, 4, Mat4, 4, 1, Mat3x4)
    case 8 => MulInstance(237, Mat2x4, 2, 4, Mat4, 4, 1, Mat2x4)
    case 9 => MulInstance(238, Mat4x3, 4, 3, Mat3, 3, 1, Mat4x3)
    case 10 => MulInstance(239, Mat3x2, 3, 2, Mat2, 2, 1, Mat3x2)
    case 11 => MulInstance(240, Mat4x2, 4, 2, Mat2, 2, 1, Mat4x2)
    case 12 => MulInstance(241, Mat2x3, 2, 3, Mat3x4, 4, 3, Mat2x4)
    case 13 => MulInstance(242, Mat3x4, 3, 4, Mat4x2, 2, 4, Mat3x2)
    case 14 => MulInstance(243, Mat2x4, 2, 4, Mat4x3, 3, 4, Mat2x3)
    case 15 => MulInstance(244, Mat4x3, 4, 3, Mat3x2, 2, 3, Mat4x2)
    case 16 => MulInstance(245, Mat3x2, 3, 2, Mat2x4, 4, 2, Mat3x4)
    case 17 => MulInstance(246, Mat4x2, 4, 2, Mat2x3, 3, 2, Mat4x3)
    case 18 => MulInstance(247, Mat2x3, 2, 3, Mat4x3, 4, 3, Mat2x4)
    case 19 => MulInstance(248, Mat3x4, 3, 4, Mat2x4, 2, 4, Mat3x2)
    case 20 => MulInstance(249, Mat2x4, 2, 4, Mat3x4, 3, 4, Mat2x3)
    case 21 => MulInstance(250, Mat4x3, 4, 3, Mat2x3, 2, 3, Mat4x2)
    case 22 => MulInstance(251, Mat3x2, 3, 2, Mat4x2, 4, 2, Mat3x4)
    case 23 => MulInstance(252, Mat4x2, 4, 2, Mat3x2, 3, 2, Mat4x3)
    case 24 => MulInstance(253, Mat2x3, 2, 3, Mat4x2, 4, 2, Mat2x4)
    case 25 => MulInstance(254, Mat3x4, 3, 4, Mat2x3, 2, 3, Mat3x2)
    case 26 => MulInstance(255, Mat4x3, 4, 3, Mat2x4, 2, 4, Mat4x2)
    case 27 => MulInstance(256, Mat3x2, 3, 2, Mat4x3, 4, 3, Mat3x4)
  }

  /** The three types form a matrix product: lhs is m×k, rhs k×n, ret m×n. */
  predicate Compatible(inst: MulInstance) {
    inst.lhs.Cols() == inst.rhs.Rows() && inst.ret.Rows() == inst.lhs.Rows() && inst.ret.Cols() == inst.rhs.Cols()
  }

  /** The bounds written out are the types' own dimensions. */
  predicate BoundsMatchTypes(inst: MulInstance) {
    && inst.rows == inst.lhs.Rows() && inst.cols == inst.lhs.Cols()
    && inst.rows2 == inst.rhs.Rows() && inst.cols2 == inst.rhs.Cols()
  }

  /** The instance's loops stay inside its three matrices. */
  predicate InBounds(inst: MulInstance) {
    && inst.rows <= inst.lhs.Rows() && inst.rows <= inst.ret.Rows()
    && inst.cols <= inst.lhs.Cols() && inst.cols <= inst.rhs.Rows()
    && inst.cols2 <= inst.rhs.Cols() && inst.cols2 <= inst.ret.Cols()
  }

  /** `lhs * rhs` through this instance: the `impl_mat_mul_mat` loop with its
      bounds, on operands of its types. */
  function Apply(inst: MulInstance, a: Mat, b: Mat): (r: Mat)
    requires Of(inst.lhs, a) && Of(inst.rhs, b) && InBounds(inst)
    ensures Of(inst.ret, r)
  {
    MacroProduct(a, b, inst.rows, inst.cols, inst.cols2, inst.ret.Rows(), inst.ret.Cols())
  }

  /** On operands of the instance's types, the loop panics exactly when the
      instance is out of bounds. */
  lemma InBoundsIsMulFits(inst: MulInstance, a: Mat, b: Mat)
    requires Of(inst.lhs, a) && Of(inst.rhs, b)
    ensures MulFits(a, b, inst.rows, inst.cols, inst.cols2, inst.ret.Rows(), inst.ret.Cols()) <==> InBounds(inst)
  {
  }

  /** An instance whose types form a product and whose bounds are the types'
      dimensions computes the matrix product. */
  lemma SoundInstanceIsProduct(inst: MulInstance, a: Mat, b: Mat)
    requires Compatible(inst) && BoundsMatchTypes(inst)
    requires Of(inst.lhs, a) && Of(inst.rhs, b)
    ensures InBounds(inst) && Apply(inst, a, b) == Product(a, b)
  {
    MacroProductIsProduct(a, b);
  }

  /** What the instance list holds.
        - Lines 229-234 are sound: their types form a product and their
          bounds are the types' dimensions.
        - Lines 235-240 pass `cols2 = 1`, and lines 241-246 swap the
          right-hand dimensions; the types of both groups form a product.
        - Lines 247-256 pass their types' dimensions, but pair types that do
          not form a product.
        - Exactly lines 242, 243, 244, 248, 249, 250, 254 and 255 index past
          a row or past the rows, so every call through them panics. */
  lemma ClassifyInstances()
    ensures forall n | 0 <= n < 28 :: Compatible(Listed(n)) <==> n < 18
    ensures forall n | 0 <= n < 28 :: BoundsMatchTypes(Listed(n)) <==> n < 6 || 18 <= n
    ensures forall n | 0 <= n < 28 :: Listed(n).cols2 == 1 <==> 6 <= n < 12
    ensures forall n | 0 <= n < 28 :: !InBounds(Listed(n)) <==> Listed(n).line in {242, 243, 244, 248, 249, 250, 254, 255}
  {
    forall n | 0 <= n < 28
      ensures Compatible(Listed(n)) <==> n < 18
      ensures BoundsMatchTypes(Listed(n)) <==> n < 6 || 18 <= n
      ensures Listed(n).cols2 == 1 <==> 6 <= n < 12
      ensures !InBounds(Listed(n)) <==> Listed(n).line in {242, 243, 244, 248, 249, 250, 254, 255}
    {
      ListedTypes(n);
      ListedBounds(n);
      ListedColumns(n);
      ListedPanics(n);
    }
  }

  lemma ListedTypes(n: nat)
    requires n < 28
    ensures Compatible(Listed(n)) <==> n < 18
  {
  }

  lemma ListedBounds(n: nat)
    requires n < 28
    ensures BoundsMatchTypes(Listed(n)) <==> n < 6 || 18 <= n
  {
  }

  lemma ListedColumns(n: nat)
    requires n < 28
    ensures Listed(n).cols2 == 1 <==> 6 <= n < 12
  {
  }

  lemma ListedPanics(n: nat)
    requires n < 28
    ensures !InBounds(Listed(n)) <==> 229 + n in {242, 243, 244, 248, 249, 250, 254, 255}
  {
  }

  /** An in-bounds instance with `cols2 = 1` whose other bounds are the
      types' dimensions (lines 235-240) computes only column 0 of the
      product; every other column of the result stays 0. */
  lemma OneColumnInstances(inst: MulInstance, a: Mat, b: Mat)
    requires Compatible(inst) && InBounds(inst) && inst.cols2 == 1
    requires inst.rows == inst.lhs.Rows() && inst.cols == inst.lhs.Cols()
    requires Of(inst.lhs, a) && Of(inst.rhs, b)
    ensures forall i | 0 <= i < a.M :: Apply(inst, a, b).data[i][0] == Product(a, b).data[i][0]
    ensures forall i, j | 0 <= i < a.M && 1 <= j < b.N :: Apply(inst, a, b).data[i][j] == 0.0
  {
    MacroProductColumnsLeftZero(a, b, inst.rows, inst.cols, inst.cols2, inst.ret.Rows(), inst.ret.Cols());
  }

  /** Line 241 swaps the right-hand dimensions (rows2 = 4, cols2 = 3 for a
      3×4 operand): it stays in bounds but leaves column 3 of the Mat2x4 at 0. */
  lemma Line241LeavesLastColumn(a: Mat, b: Mat)
    requires Of(Mat2x3, a) && Of(Mat3x4, b)
    ensures var inst := Listed(12);
      && inst.line == 241 && InBounds(inst)
      && (forall i, j | 0 <= i < 2 && 0 <= j < 3 :: Apply(inst, a, b).data[i][j] == Product(a, b).data[i][j])
      && (forall i | 0 <= i < 2 :: Apply(inst, a, b).data[i][3] == 0.0)
  {
    var inst := Listed(12);
    MacroProductColumnsLeftZero(a, b, inst.rows, inst.cols, inst.cols2, inst.ret.Rows(), inst.ret.Cols());
  }

  /** `Mat2x3::new() * Mat3::new()` through line 235 gives [[1, 0, 0], [0, 0, 0]],
      while the product is `Mat2x3::new()` itself. */
  lemma Line235Counterexample()
    ensures var inst, a, b := Listed(6), ShapeNew(Mat2x3), ShapeNew(Mat3);
      && inst.line == 235 && InBounds(inst)
      && Product(a, b) == a
      && Apply(inst, a, b).data[1][1] == 0.0 && a.data[1][1] == 1.0
      && Apply(inst, a, b) != Product(a, b)
  {
    var inst, a, b := Listed(6), ShapeNew(Mat2x3), ShapeNew(Mat3);
    SquareNewIsIdentity();
    ProductIdentityRight(a);
    assert Apply(inst, a, b).data[1][1] == 0.0;
  }

  /** The evidently intended instance: the same types, with the bounds taken
      from them and the result shaped lhs rows × rhs columns. */
  function Corrected(inst: MulInstance): (r: MulInstance)
    requires Compatible(inst)
    ensures Compatible(r) && BoundsMatchTypes(r) && InBounds(r)
    ensures r.lhs == inst.lhs && r.rhs == inst.rhs && r.ret == inst.ret && r.line == inst.line
  {
    MulInstance(inst.line, inst.lhs, inst.lhs.Rows(), inst.lhs.Cols(), inst.rhs, inst.rhs.Rows(), inst.rhs.Cols(), inst.ret)
  }

  /** Every instance whose types form a product (lines 229-246) computes the
      matrix product once corrected, and a sound instance is its own correction. */
  lemma CorrectedInstancesAreProducts(inst: MulInstance, a: Mat, b: Mat)
    requires Compatible(inst)
    requires Of(inst.lhs, a) && Of(inst.rhs, b)
    ensures Apply(Corrected(inst), a, b) == Product(a, b)
    ensures BoundsMatchTypes(inst) ==> Corrected(inst) == inst
  {
    SoundInstanceIsProduct(Corrected(inst), a, b);
  }
}
