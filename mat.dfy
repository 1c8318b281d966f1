/** The generic matrix of src/utils/mat.rs.

    `Mat<T, M, N>` is a row-major `[[T; N]; M]` whose dimensions are const
    generics. Here the two dimensions are fields of the value and the subset
    type `Mat` keeps the storage in step with them. Entries are exact reals,
    so the laws below hold exactly, where the f32 original holds them only up
    to rounding. */
module Matrix {
  import opened Outcome

  /** `d` has exactly M rows of N entries each. */
  predicate IsGrid(d: seq<seq<real>>, M: nat, N: nat) {
    |d| == M && forall i | 0 <= i < M :: |d[i]| == N
  }

  datatype RawMat = RawMat(M: nat, N: nat, data: seq<seq<real>>)

  /** `Mat<T, M, N>`: the array really is M×N. */
  type Mat = a: RawMat | IsGrid(a.data, a.M, a.N) witness RawMat(0, 0, [])

  // ---------------------------------------------------------------------------
  // Construction and conversion
  // ---------------------------------------------------------------------------

  /** `Mat::new()`, and `Mat::default()`, which has the same body: every entry
      is `T::default()`, that is 0. */
  function New(M: nat, N: nat): (r: Mat)
    ensures r.M == M && r.N == N
    ensures forall i, j | 0 <= i < M && 0 <= j < N :: r.data[i][j] == 0.0
  {
    RawMat(M, N, seq(M, _ => seq(N, _ => 0.0)))
  }

  /** `From<[[T; N]; M]>`: the array becomes the storage as it is. */
  function From(M: nat, N: nat, value: seq<seq<real>>): (r: Mat)
    requires IsGrid(value, M, N)
    ensures r.M == M && r.N == N
  {
    RawMat(M, N, value)
  }

  /** `Into<[[T; N]; M]>`: the storage, as an M×N array. */
  function Into(a: Mat): (r: seq<seq<real>>)
    ensures IsGrid(r, a.M, a.N)
  {
    a.data
  }

  lemma IntoFrom(M: nat, N: nat, value: seq<seq<real>>)
    requires IsGrid(value, M, N)
    ensures Into(From(M, N, value)) == value
    ensures forall i, j | 0 <= i < M && 0 <= j < N :: From(M, N, value).data[i][j] == value[i][j]
  {
  }

  lemma FromInto(a: Mat)
    ensures From(a.M, a.N, Into(a)) == a
  {
  }

  /** `rows()`: the number of stored rows. */
  function Rows(a: Mat): (r: nat)
    ensures r == |a.data|
  {
    a.M
  }

  /** `cols()`: the length of every stored row. */
  function Cols(a: Mat): (r: nat)
    ensures forall i | 0 <= i < |a.data| :: |a.data[i]| == r
  {
    a.N
  }

  /** `count()`: the number of entries, rows times columns. */
  function Count(a: Mat): (r: nat)
    ensures r == Rows(a) * Cols(a)
    ensures a.M > 0 ==> r == |a.data| * |a.data[0]|
  {
    a.M * a.N
  }

  /** Two matrices of one shape that agree in every entry are equal. */
  lemma Ext(a: Mat, b: Mat)
    requires a.M == b.M && a.N == b.N
    requires forall i, j | 0 <= i < a.M && 0 <= j < a.N :: a.data[i][j] == b.data[i][j]
    ensures a == b
  {
    forall i | 0 <= i < a.M
      ensures a.data[i] == b.data[i]
    {
      assert |a.data[i]| == |b.data[i]| == a.N;
    }
    assert a.data == b.data;
  }

  // ---------------------------------------------------------------------------
  // Indexing
  // ---------------------------------------------------------------------------

  /** `Index<usize>`: `a[i]` is row i; an index past the last row is a bounds panic. */
  function Index(a: Mat, i: int): (r: Result<seq<real>>)
    ensures r.Ok? <==> 0 <= i < a.M
    ensures r.Panic? <==> !(0 <= i < a.M)
    ensures r.Ok? ==> |r.value| == a.N && forall j | 0 <= j < a.N :: r.value[j] == a.data[i][j]
  {
    if 0 <= i < a.M then Ok(a.data[i]) else Panic("index out of bounds")
  }

  /** An entry assignment `m[i][j] = x` through the row that `IndexMut` hands out. */
  function Set(a: Mat, i: nat, j: nat, x: real): (r: Mat)
    requires i < a.M && j < a.N
    ensures r.M == a.M && r.N == a.N && r.data[i][j] == x
    ensures forall p, q | 0 <= p < a.M && 0 <= q < a.N && (p != i || q != j) :: r.data[p][q] == a.data[p][q]
  {
    RawMat(a.M, a.N, a.data[i := a.data[i][j := x]])
  }

  // ---------------------------------------------------------------------------
  // Specifications of the operators
  // ---------------------------------------------------------------------------

  function Sum(a: Mat, b: Mat): (r: Mat)
    requires a.M == b.M && a.N == b.N
    ensures r.M == a.M && r.N == a.N
  {
    RawMat(a.M, a.N, seq(a.M, i requires 0 <= i < a.M =>
      seq(a.N, j requires 0 <= j < a.N => a.data[i][j] + b.data[i][j])))
  }

  function Difference(a: Mat, b: Mat): (r: Mat)
    requires a.M == b.M && a.N == b.N
    ensures r.M == a.M && r.N == a.N
  {
    RawMat(a.M, a.N, seq(a.M, i requires 0 <= i < a.M =>
      seq(a.N, j requires 0 <= j < a.N => a.data[i][j] - b.data[i][j])))
  }

  function Negated(a: Mat): (r: Mat)
    ensures r.M == a.M && r.N == a.N
  {
    RawMat(a.M, a.N, seq(a.M, i requires 0 <= i < a.M =>
      seq(a.N, j requires 0 <= j < a.N => -a.data[i][j])))
  }

  function Scaled(a: Mat, k: real): (r: Mat)
    ensures r.M == a.M && r.N == a.N
  {
    RawMat(a.M, a.N, seq(a.M, i requires 0 <= i < a.M =>
      seq(a.N, j requires 0 <= j < a.N => a.data[i][j] * k)))
  }

  function Quotient(a: Mat, k: real): (r: Mat)
    requires k != 0.0
    ensures r.M == a.M && r.N == a.N
  {
    RawMat(a.M, a.N, seq(a.M, i requires 0 <= i < a.M =>
      seq(a.N, j requires 0 <= j < a.N => a.data[i][j] / k)))
  }

  /** Σ_{k < K} a[i][k]·b[k][j], accumulated in the order of `for k in 0..K`. */
  function Dot(a: Mat, b: Mat, i: nat, j: nat, K: nat): real
    requires i < a.M && j < b.N && K <= a.N && K <= b.M
  {
    if K == 0 then 0.0 else Dot(a, b, i, j, K - 1) + a.data[i][K - 1] * b.data[K - 1][j]
  }

  /** The M×K by K×N product. */
  function Product(a: Mat, b: Mat): (r: Mat)
    requires a.N == b.M
    ensures r.M == a.M && r.N == b.N
  {
    RawMat(a.M, b.N, seq(a.M, i requires 0 <= i < a.M =>
      seq(b.N, j requires 0 <= j < b.N => Dot(a, b, i, j, a.N))))
  }

  function Transposed(a: Mat): (r: Mat)
    ensures r.M == a.N && r.N == a.M
  {
    RawMat(a.N, a.M, seq(a.N, j requires 0 <= j < a.N =>
      seq(a.M, i requires 0 <= i < a.M => a.data[i][j])))
  }

  function Identity(M: nat): (r: Mat)
    ensures r.M == M && r.N == M
  {
    RawMat(M, M, seq(M, i => seq(M, j => if i == j then 1.0 else 0.0)))
  }

  // ---------------------------------------------------------------------------
  // The operators, as the nested loops the source runs
  // ---------------------------------------------------------------------------

  /** Loop state of `for i in 0..M { for j in 0..N { r[i][j] = ... } }`: the
      entries before (i, j) in row-major order already hold `done`'s value, the
      others still hold `todo`'s. */
  ghost predicate Progress(r: Mat, done: Mat, todo: Mat, i: nat, j: nat)
    requires r.M == done.M == todo.M && r.N == done.N == todo.N
  {
    forall p, q | 0 <= p < r.M && 0 <= q < r.N ::
      r.data[p][q] == (if p < i || (p == i && q < j) then done.data[p][q] else todo.data[p][q])
  }

  /** `impl Add for Mat`. */
  method Add(a: Mat, b: Mat) returns (r: Mat)
    requires a.M == b.M && a.N == b.N
    ensures r == Sum(a, b)
  {
    var zero := New(a.M, a.N);
    r := zero;
    for i := 0 to a.M
      invariant r.M == a.M && r.N == a.N
      invariant Progress(r, Sum(a, b), zero, i, 0)
    {
      for j := 0 to a.N
        invariant r.M == a.M && r.N == a.N
        invariant Progress(r, Sum(a, b), zero, i, j)
      {
        r := Set(r, i, j, a.data[i][j] + b.data[i][j]);
      }
    }
    Ext(r, Sum(a, b));
  }

  /** `impl Sub for Mat`. */
  method Sub(a: Mat, b: Mat) returns (r: Mat)
    requires a.M == b.M && a.N == b.N
    ensures r == Difference(a, b)
  {
    var zero := New(a.M, a.N);
    r := zero;
    for i := 0 to a.M
      invariant r.M == a.M && r.N == a.N
      invariant Progress(r, Difference(a, b), zero, i, 0)
    {
      for j := 0 to a.N
        invariant r.M == a.M && r.N == a.N
        invariant Progress(r, Difference(a, b), zero, i, j)
      {
        r := Set(r, i, j, a.data[i][j] - b.data[i][j]);
      }
    }
    Ext(r, Difference(a, b));
  }

  /** `impl Neg for Mat`. */
  method Neg(a: Mat) returns (r: Mat)
    ensures r == Negated(a)
  {
    var zero := New(a.M, a.N);
    r := zero;
    for i := 0 to a.M
      invariant r.M == a.M && r.N == a.N
      invariant Progress(r, Negated(a), zero, i, 0)
    {
      for j := 0 to a.N
        invariant r.M == a.M && r.N == a.N
        invariant Progress(r, Negated(a), zero, i, j)
      {
        r := Set(r, i, j, -a.data[i][j]);
      }
    }
    Ext(r, Negated(a));
  }

  /** `impl Mul<T> for Mat`: multiplication by a scalar. */
  method MulScalar(a: Mat, k: real) returns (r: Mat)
    ensures r == Scaled(a, k)
  {
    var zero := New(a.M, a.N);
    r := zero;
    for i := 0 to a.M
      invariant r.M == a.M && r.N == a.N
      invariant Progress(r, Scaled(a, k), zero, i, 0)
    {
      for j := 0 to a.N
        invariant r.M == a.M && r.N == a.N
        invariant Progress(r, Scaled(a, k), zero, i, j)
      {
        r := Set(r, i, j, a.data[i][j] * k);
      }
    }
    Ext(r, Scaled(a, k));
  }

  /** `impl Div<T> for Mat`: division by a scalar. The source does not check
      for a zero divisor (f32 gives inf or NaN); the model leaves that case out. */
  method DivScalar(a: Mat, k: real) returns (r: Mat)
    requires k != 0.0
    ensures r == Quotient(a, k)
  {
    var zero := New(a.M, a.N);
    r := zero;
    for i := 0 to a.M
      invariant r.M == a.M && r.N == a.N
      invariant Progress(r, Quotient(a, k), zero, i, 0)
    {
      for j := 0 to a.N
        invariant r.M == a.M && r.N == a.N
        invariant Progress(r, Quotient(a, k), zero, i, j)
      {
        r := Set(r, i, j, a.data[i][j] / k);
      }
    }
    Ext(r, Quotient(a, k));
  }

  /** `impl Mul<Mat<T, K, N>> for Mat<T, M, K>`: the triple loop with `+=`. */
  method Mul(a: Mat, b: Mat) returns (r: Mat)
    requires a.N == b.M
    ensures r == Product(a, b)
  {
    var zero := New(a.M, b.N);
    ghost var p := Product(a, b);
    r := zero;
    for i := 0 to a.M
      invariant r.M == a.M && r.N == b.N
      invariant Progress(r, p, zero, i, 0)
    {
      for j := 0 to b.N
        invariant r.M == a.M && r.N == b.N
        invariant Progress(r, p, zero, i, j)
      {
        for k := 0 to a.N
          invariant r.M == a.M && r.N == b.N
          invariant r.data[i][j] == Dot(a, b, i, j, k)
          invariant forall p', q | 0 <= p' < r.M && 0 <= q < r.N && (p' != i || q != j) ::
            r.data[p'][q] == (if p' < i || (p' == i && q < j) then p.data[p'][q] else 0.0)
        {
          r := Set(r, i, j, r.data[i][j] + a.data[i][k] * b.data[k][j]);
        }
      }
    }
    Ext(r, p);
  }

  /** Loop state of `T()`, which fills the result column by column: the
      entries of the columns before i, and of column i above row j, already
      hold `done`'s value, the others are still 0. */
  ghost predicate ColumnProgress(r: Mat, done: Mat, i: nat, j: nat)
    requires r.M == done.M && r.N == done.N
  {
    forall p, q | 0 <= p < r.M && 0 <= q < r.N ::
      r.data[p][q] == (if q < i || (q == i && p < j) then done.data[p][q] else 0.0)
  }

  /** `T()`: writes `result[j][i] = a[i][j]` for every (i, j). */
  method T(a: Mat) returns (r: Mat)
    ensures r == Transposed(a)
  {
    ghost var t := Transposed(a);
    r := New(a.N, a.M);
    for i := 0 to a.M
      invariant r.M == a.N && r.N == a.M
      invariant ColumnProgress(r, t, i, 0)
    {
      for j := 0 to a.N
        invariant r.M == a.N && r.N == a.M
        invariant ColumnProgress(r, t, i, j)
      {
        r := Set(r, j, i, a.data[i][j]);
      }
    }
    Ext(r, t);
  }

  /** `transpose()`: the same matrix as `T()`. */
  method Transpose(a: Mat) returns (r: Mat)
    ensures r == Transposed(a)
  {
    r := T(a);
  }

  /** `I()` / `identity()`: zeros, then 1 written on the diagonal. */
  method I(M: nat) returns (r: Mat)
    ensures r == Identity(M)
  {
    r := New(M, M);
    for i := 0 to M
      invariant r.M == M && r.N == M
      invariant forall p, q | 0 <= p < M && 0 <= q < M ::
        r.data[p][q] == (if p == q && p < i then 1.0 else 0.0)
    {
      r := Set(r, i, i, 1.0);
    }
    Ext(r, Identity(M));
  }

  // ---------------------------------------------------------------------------
  // In-place operators
  // ---------------------------------------------------------------------------

  /** A `let mut` binding of a `Mat`: the place that `+=`, `-=`, `*=`, `/=` and
      `IndexMut` update in place. */
  class MatMut {
    var value: Mat

    constructor (init: Mat)
      ensures value == init
    {
      value := init;
    }

    /** `AddAssign`: `self[i][j] += rhs[i][j]` for every entry. */
    method AddAssign(rhs: Mat)
      requires rhs.M == value.M && rhs.N == value.N
      modifies this
      ensures value == Sum(old(value), rhs)
    {
      ghost var v0 := value;
      var M, N := value.M, value.N;
      ghost var target := Sum(v0, rhs);
      for i := 0 to M
        invariant value.M == v0.M && value.N == v0.N
        invariant Progress(value, target, v0, i, 0)
      {
        for j := 0 to N
          invariant value.M == v0.M && value.N == v0.N
          invariant Progress(value, target, v0, i, j)
        {
          value := Set(value, i, j, value.data[i][j] + rhs.data[i][j]);
        }
      }
      Ext(value, target);
    }

    /** `SubAssign`: `self[i][j] -= rhs[i][j]` for every entry. */
    method SubAssign(rhs: Mat)
      requires rhs.M == value.M && rhs.N == value.N
      modifies this
      ensures value == Difference(old(value), rhs)
    {
      ghost var v0 := value;
      var M, N := value.M, value.N;
      ghost var target := Difference(v0, rhs);
      for i := 0 to M
        invariant value.M == v0.M && value.N == v0.N
        invariant Progress(value, target, v0, i, 0)
      {
        for j := 0 to N
          invariant value.M == v0.M && value.N == v0.N
          invariant Progress(value, target, v0, i, j)
        {
          value := Set(value, i, j, value.data[i][j] - rhs.data[i][j]);
        }
      }
      Ext(value, target);
    }

    /** `MulAssign<T>`: `self[i][j] *= k` for every entry. */
    method MulAssign(k: real)
      modifies this
      ensures value == Scaled(old(value), k)
    {
      ghost var v0 := value;
      var M, N := value.M, value.N;
      ghost var target := Scaled(v0, k);
      for i := 0 to M
        invariant value.M == v0.M && value.N == v0.N
        invariant Progress(value, target, v0, i, 0)
      {
        for j := 0 to N
          invariant value.M == v0.M && value.N == v0.N
          invariant Progress(value, target, v0, i, j)
        {
          value := Set(value, i, j, value.data[i][j] * k);
        }
      }
      Ext(value, target);
    }

    /** `DivAssign<T>`: `self[i][j] /= k` for every entry (no zero check in the source). */
    method DivAssign(k: real)
      requires k != 0.0
      modifies this
      ensures value == Quotient(old(value), k)
    {
      ghost var v0 := value;
      var M, N := value.M, value.N;
      ghost var target := Quotient(v0, k);
      for i := 0 to M
        invariant value.M == v0.M && value.N == v0.N
        invariant Progress(value, target, v0, i, 0)
      {
        for j := 0 to N
          invariant value.M == v0.M && value.N == v0.N
          invariant Progress(value, target, v0, i, j)
        {
          value := Set(value, i, j, value.data[i][j] / k);
        }
      }
      Ext(value, target);
    }

    /** `IndexMut<usize>`: whatever is written through `&mut self[i]` replaces
        row i and nothing else; an index past the last row panics and the
        matrix is left as it was. */
    method IndexMut(i: int, row: seq<real>) returns (r: Result<()>)
      requires |row| == value.N
      modifies this
      ensures r.Ok? <==> 0 <= i < old(value).M
      ensures r.Ok? ==>
        value.M == old(value).M && value.N == old(value).N && value.data == old(value).data[i := row]
      ensures !r.Ok? ==> r.Panic? && value == old(value)
    {
      if 0 <= i < value.M {
        value := RawMat(value.M, value.N, value.data[i := row]);
        r := Ok(());
      } else {
        r := Panic("index out of bounds");
      }
    }
  }

  // ---------------------------------------------------------------------------
  // Laws
  // ---------------------------------------------------------------------------

  lemma SumCommutes(a: Mat, b: Mat)
    requires a.M == b.M && a.N == b.N
    ensures Sum(a, b) == Sum(b, a)
  {
    Ext(Sum(a, b), Sum(b, a));
  }

  /** (a + b) - b == a. */
  lemma SumThenDifference(a: Mat, b: Mat)
    requires a.M == b.M && a.N == b.N
    ensures Difference(Sum(a, b), b) == a
  {
    Ext(Difference(Sum(a, b), b), a);
  }

  /** a + (-a) is the zero matrix `new()`. */
  lemma SumNegated(a: Mat)
    ensures Sum(a, Negated(a)) == New(a.M, a.N)
  {
    Ext(Sum(a, Negated(a)), New(a.M, a.N));
  }

  /** Dividing by k undoes multiplying by k. */
  lemma ScaledThenQuotient(a: Mat, k: real)
    requires k != 0.0
    ensures Quotient(Scaled(a, k), k) == a
  {
    forall i, j | 0 <= i < a.M && 0 <= j < a.N
      ensures Quotient(Scaled(a, k), k).data[i][j] == a.data[i][j]
    {
      assert Quotient(Scaled(a, k), k).data[i][j] == (a.data[i][j] * k) / k;
    }
    Ext(Quotient(Scaled(a, k), k), a);
  }

  lemma TransposeTwice(a: Mat)
    ensures Transposed(Transposed(a)) == a
  {
    Ext(Transposed(Transposed(a)), a);
  }

  /** The partial sums of row i of I times column j of b. */
  lemma {:induction false} DotIdentityLeft(b: Mat, i: nat, j: nat, K: nat)
    requires i < b.M && j < b.N && K <= b.M
    ensures Dot(Identity(b.M), b, i, j, K) == (if i < K then b.data[i][j] else 0.0)
  {
    if K > 0 {
      DotIdentityLeft(b, i, j, K - 1);
    }
  }

  /** The partial sums of row i of a times column j of I. */
  lemma {:induction false} DotIdentityRight(a: Mat, i: nat, j: nat, K: nat)
    requires i < a.M && j < a.N && K <= a.N
    ensures Dot(a, Identity(a.N), i, j, K) == (if j < K then a.data[i][j] else 0.0)
  {
    if K > 0 {
      DotIdentityRight(a, i, j, K - 1);
    }
  }

  /** Two 3×3 matrices that agree in all nine entries are equal. */
  lemma Ext3(a: Mat, b: Mat)
    requires a.M == b.M == 3 && a.N == b.N == 3
    requires a.data[0][0] == b.data[0][0] && a.data[0][1] == b.data[0][1] && a.data[0][2] == b.data[0][2]
    requires a.data[1][0] == b.data[1][0] && a.data[1][1] == b.data[1][1] && a.data[1][2] == b.data[1][2]
    requires a.data[2][0] == b.data[2][0] && a.data[2][1] == b.data[2][1] && a.data[2][2] == b.data[2][2]
    ensures a == b
  {
    Ext(a, b);
  }

  /** Entrywise equality of two 4×4 matrices, entry by entry. */
  lemma Ext4(a: Mat, b: Mat)
    requires a.M == b.M == 4 && a.N == b.N == 4
    requires a.data[0][0] == b.data[0][0] && a.data[0][1] == b.data[0][1] && a.data[0][2] == b.data[0][2] && a.data[0][3] == b.data[0][3]
    requires a.data[1][0] == b.data[1][0] && a.data[1][1] == b.data[1][1] && a.data[1][2] == b.data[1][2] && a.data[1][3] == b.data[1][3]
    requires a.data[2][0] == b.data[2][0] && a.data[2][1] == b.data[2][1] && a.data[2][2] == b.data[2][2] && a.data[2][3] == b.data[2][3]
    requires a.data[3][0] == b.data[3][0] && a.data[3][1] == b.data[3][1] && a.data[3][2] == b.data[3][2] && a.data[3][3] == b.data[3][3]
    ensures a == b
  {
    Ext(a, b);
  }

  /** An entry of a product whose inner dimension is 3, written out. */
  lemma ProductEntry3(a: Mat, b: Mat, i: nat, j: nat)
    requires a.N == 3 && b.M == 3 && i < a.M && j < b.N
    ensures Product(a, b).data[i][j] ==
      a.data[i][0] * b.data[0][j] + a.data[i][1] * b.data[1][j] + a.data[i][2] * b.data[2][j]
  {
    assert Product(a, b).data[i][j] == Dot(a, b, i, j, 3);
    assert Dot(a, b, i, j, 1) == a.data[i][0] * b.data[0][j];
    assert Dot(a, b, i, j, 2) == Dot(a, b, i, j, 1) + a.data[i][1] * b.data[1][j];
  }

  /** An entry of a product whose inner dimension is 4, written out. */
  lemma ProductEntry4(a: Mat, b: Mat, i: nat, j: nat)
    requires a.N == 4 && b.M == 4 && i < a.M && j < b.N
    ensures Product(a, b).data[i][j] ==
      a.data[i][0] * b.data[0][j] + a.data[i][1] * b.data[1][j] +
      a.data[i][2] * b.data[2][j] + a.data[i][3] * b.data[3][j]
  {
    assert Product(a, b).data[i][j] == Dot(a, b, i, j, 4);
    assert Dot(a, b, i, j, 1) == a.data[i][0] * b.data[0][j];
    assert Dot(a, b, i, j, 2) == Dot(a, b, i, j, 1) + a.data[i][1] * b.data[1][j];
    assert Dot(a, b, i, j, 3) == Dot(a, b, i, j, 2) + a.data[i][2] * b.data[2][j];
  }

  /** I·A == A. */
  lemma ProductIdentityLeft(a: Mat)
    ensures Product(Identity(a.M), a) == a
  {
    forall i, j | 0 <= i < a.M && 0 <= j < a.N
      ensures Product(Identity(a.M), a).data[i][j] == a.data[i][j]
    {
      DotIdentityLeft(a, i, j, a.M);
    }
    Ext(Product(Identity(a.M), a), a);
  }

  /** A·I == A. */
  lemma ProductIdentityRight(a: Mat)
    ensures Product(a, Identity(a.N)) == a
  {
    forall i, j | 0 <= i < a.M && 0 <= j < a.N
      ensures Product(a, Identity(a.N)).data[i][j] == a.data[i][j]
    {
      DotIdentityRight(a, i, j, a.N);
    }
    Ext(Product(a, Identity(a.N)), a);
  }
}
