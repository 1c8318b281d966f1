/** src/utils/mat/mat2.rs ... mat4x3.rs: the fixed shapes of the older matrix
    generation, their hand-written `new()`, `Default` and `From`, and the
    macro instances each file declares. */
module LegacyShapes {
  import opened Outcome
  import opened Matrix
  import opened LegacyMat

  datatype Shape = Mat2 | Mat2x3 | Mat2x4 | Mat3 | Mat3x2 | Mat3x4 | Mat4 | Mat4x2 | Mat4x3
  {
    /** The row count in the type's name. */
    function Rows(): nat {
      match this
      case Mat2 | Mat2x3 | Mat2x4 => 2
      case Mat3 | Mat3x2 | Mat3x4 => 3
      case Mat4 | Mat4x2 | Mat4x3 => 4
    }

    /** The column count in the type's name. */
    function Cols(): nat {
      match this
      case Mat2 | Mat3x2 | Mat4x2 => 2
      case Mat3 | Mat2x3 | Mat4x3 => 3
      case Mat4 | Mat2x4 | Mat3x4 => 4
    }
  }

  /** A matrix of the shape's dimensions. */
  predicate Of(s: Shape, a: Mat) {
    a.M == s.Rows() && a.N == s.Cols()
  }

  /** The struct literal of each file's `new()`. */
  function ShapeNew(s: Shape): (r: Mat)
    ensures Of(s, r)
  {
    match s
    case Mat2 => From(2, 2, [[1.0, 0.0], [0.0, 1.0]])
    case Mat3 => From(3, 3, [[1.0, 0.0, 0.0], [0.0, 1.0, 0.0], [0.0, 0.0, 1.0]])
    case Mat4 => From(4, 4, [[1.0, 0.0, 0.0, 0.0], [0.0, 1.0, 0.0, 0.0], [0.0, 0.0, 1.0, 0.0], [0.0, 0.0, 0.0, 1.0]])
    case Mat2x3 => From(2, 3, [[1.0, 0.0, 0.0], [0.0, 1.0, 0.0]])
    case Mat2x4 => From(2, 4, [[1.0, 0.0, 0.0, 0.0], [0.0, 1.0, 0.0, 0.0]])
    case Mat3x2 => From(3, 2, [[1.0, 0.0], [0.0, 0.0], [0.0, 0.0]])
    case Mat3x4 => From(3, 4, [[1.0, 0.0, 0.0, 0.0], [0.0, 1.0, 0.0, 0.0], [0.0, 0.0, 1.0, 0.0]])
    case Mat4x2 => From(4, 2, [[1.0, 0.0], [0.0, 0.0], [0.0, 0.0], [0.0, 0.0]])
    case Mat4x3 => From(4, 3, [[1.0, 0.0, 0.0], [0.0, 1.0, 0.0], [0.0, 0.0, 1.0], [0.0, 0.0, 0.0]])
  }

  /** `Default::default()`, `[[0.0.into(); cols]; rows]`; for `Mat2`, which has
      no `Default`, its `zero()`. */
  function ShapeDefault(s: Shape): (r: Mat)
    ensures Of(s, r)
  {
    if s == Mat2 then From(2, 2, [[0.0, 0.0], [0.0, 0.0]]) else New(s.Rows(), s.Cols())
  }

  /** `From<[[T; cols]; rows]>`: the array becomes the storage. `Mat2` and
      `Mat4` have no `From`. */
  function ShapeFrom(s: Shape, value: seq<seq<real>>): (r: Mat)
    requires s != Mat2 && s != Mat4 && IsGrid(value, s.Rows(), s.Cols())
    ensures Of(s, r)
  {
    From(s.Rows(), s.Cols(), value)
  }

  /** The operator macros one file instantiates. */
  datatype Instance = AddOp | SubOp | MulNumberOp | DivNumberOp | NegOp
                    | AddAssignOp | SubAssignOp | MulAssignNumberOp | DivAssignNumberOp
                    | IndexOp | SquareMulOp

  /** The macro invocations at the end of each shape file, all with the
      shape's own dimensions as bounds. */
  function Instances(s: Shape): set<Instance> {
    match s
    case Mat2 => {}
    case Mat3 => {AddOp, SubOp, MulNumberOp, SquareMulOp, IndexOp}
    case Mat4 => {AddOp, SubOp, MulNumberOp}
    case _ => {AddOp, SubOp, MulNumberOp, IndexOp, DivNumberOp, NegOp,
               AddAssignOp, SubAssignOp, MulAssignNumberOp, DivAssignNumberOp}
  }

  // ---------------------------------------------------------------------------
  // Mat2
  // ---------------------------------------------------------------------------

  /** `Mat2::new()` has 1 on the diagonal and 0 off it, `Mat2::zero()` is all
      0, so the two differ exactly on the diagonal. */
  lemma Mat2NewAndZero()
    ensures ShapeNew(Mat2).data[0][0] == 1.0 && ShapeNew(Mat2).data[1][1] == 1.0
    ensures ShapeNew(Mat2).data[0][1] == 0.0 && ShapeNew(Mat2).data[1][0] == 0.0
    ensures forall i, j | 0 <= i < 2 && 0 <= j < 2 :: ShapeDefault(Mat2).data[i][j] == 0.0
    ensures forall i, j | 0 <= i < 2 && 0 <= j < 2 ::
      ShapeNew(Mat2).data[i][j] != ShapeDefault(Mat2).data[i][j] <==> i == j
  {
    var n, z := ShapeNew(Mat2), ShapeDefault(Mat2);
    forall i, j | 0 <= i < 2 && 0 <= j < 2
      ensures z.data[i][j] == 0.0
      ensures n.data[i][j] == (if i == j then 1.0 else 0.0)
    {
      assert z.data == [[0.0, 0.0], [0.0, 0.0]];
      assert n.data == [[1.0, 0.0], [0.0, 1.0]];
    }
  }

  // ---------------------------------------------------------------------------
  // new() and default() of every shape
  // ---------------------------------------------------------------------------

  /** The square shapes' `new()` is the identity. */
  lemma SquareNewIsIdentity()
    ensures ShapeNew(Mat2) == Identity(2)
    ensures ShapeNew(Mat3) == Identity(3)
    ensures ShapeNew(Mat4) == Identity(4)
  {
    Ext(ShapeNew(Mat2), Identity(2));
    Ext3(ShapeNew(Mat3), Identity(3));
    Ext4(ShapeNew(Mat4), Identity(4));
  }

  /** Mat2x3, Mat2x4, Mat3x4 and Mat4x3 put 1 at every (i, i); Mat3x2 and
      Mat4x2 put a single 1 at (0, 0), so their [1][1] is 0. */
  lemma RectangularNew(i: nat, j: nat)
    ensures i < 2 && j < 3 ==> ShapeNew(Mat2x3).data[i][j] == (if i == j then 1.0 else 0.0)
    ensures i < 2 && j < 4 ==> ShapeNew(Mat2x4).data[i][j] == (if i == j then 1.0 else 0.0)
    ensures i < 3 && j < 4 ==> ShapeNew(Mat3x4).data[i][j] == (if i == j then 1.0 else 0.0)
    ensures i < 4 && j < 3 ==> ShapeNew(Mat4x3).data[i][j] == (if i == j then 1.0 else 0.0)
    ensures i < 3 && j < 2 ==> ShapeNew(Mat3x2).data[i][j] == (if i == 0 && j == 0 then 1.0 else 0.0)
    ensures i < 4 && j < 2 ==> ShapeNew(Mat4x2).data[i][j] == (if i == 0 && j == 0 then 1.0 else 0.0)
  {
  }

  /** Every `default()` (and `Mat2::zero()`) is all 0. */
  lemma DefaultIsZero(s: Shape)
    ensures forall i, j | 0 <= i < s.Rows() && 0 <= j < s.Cols() :: ShapeDefault(s).data[i][j] == 0.0
  {
    if s == Mat2 {
      Mat2NewAndZero();
    }
  }

  /** `From` keeps the array: reading it back, or indexing row i, gives the
      array's own rows. */
  lemma FromKeepsArray(s: Shape, value: seq<seq<real>>, i: nat)
    requires s != Mat2 && s != Mat4 && IsGrid(value, s.Rows(), s.Cols())
    ensures Into(ShapeFrom(s, value)) == value
    ensures i < s.Rows() ==> Index(ShapeFrom(s, value), i) == Ok(value[i])
    ensures i >= s.Rows() ==> Index(ShapeFrom(s, value), i).Panic?
  {
  }

  // ---------------------------------------------------------------------------
  // The instances of Mat3 and Mat4
  // ---------------------------------------------------------------------------

  /** `impl_mat_mul_mat!(Mat3<T>, 3, 3)`: `Mat3::new()` is a two-sided unit. */
  lemma Mat3NewIsUnit(a: Mat)
    requires Of(Mat3, a)
    ensures SquareMulOp in Instances(Mat3)
    ensures MulFits(ShapeNew(Mat3), a, 3, 3, 3, 3, 3) && MacroProduct(ShapeNew(Mat3), a, 3, 3, 3, 3, 3) == a
    ensures MulFits(a, ShapeNew(Mat3), 3, 3, 3, 3, 3) && MacroProduct(a, ShapeNew(Mat3), 3, 3, 3, 3, 3) == a
  {
    SquareNewIsIdentity();
    MacroProductIsProduct(ShapeNew(Mat3), a);
    MacroProductIsProduct(a, ShapeNew(Mat3));
    ProductIdentityLeft(a);
    ProductIdentityRight(a);
  }

  /** `Mat4::new() + Mat4::default() == Mat4::new()`, and `Mat4::new() * k`
      has k on the diagonal and 0 elsewhere. */
  lemma Mat4NewLaws(k: real)
    ensures AddOp in Instances(Mat4) && MulNumberOp in Instances(Mat4) && NegOp !in Instances(Mat4)
    ensures MacroElementwise(Plus, ShapeNew(Mat4), ShapeDefault(Mat4), 4, 4) == ShapeNew(Mat4)
    ensures forall i, j | 0 <= i < 4 && 0 <= j < 4 ::
      MacroElementwise(Times(k), ShapeNew(Mat4), ShapeNew(Mat4), 4, 4).data[i][j] == (if i == j then k else 0.0)
  {
    SquareNewIsIdentity();
    Ext(MacroElementwise(Plus, ShapeNew(Mat4), ShapeDefault(Mat4), 4, 4), ShapeNew(Mat4));
  }
}
