/** src/utils/mat/mod.rs: the operator macros of the older per-shape matrix
    generation (`Mat2` ... `Mat4x3`).

    Each macro is instantiated with a type and the loop bounds `$rows`,
    `$cols` (and `$cols2` for products) written out by hand, so the bounds
    are parameters here, separate from the dimensions of the matrices the
    loops index. An index past the end of a row or of the rows is a bounds
    panic, as in Rust. Every instance passes positive bounds. */
module LegacyMat {
  import opened Outcome
  import opened Matrix

  // ---------------------------------------------------------------------------
  // Elementwise macros
  // ---------------------------------------------------------------------------

  /** The entry operation of one elementwise macro: `impl_mat_ops_add`,
      `impl_mat_ops_sub`, `impl_mat_ops_mul_number`, `impl_mat_ops_div_number`
      and `impl_mat_ops_neg`, and the `*_assign` forms of the first four. */
  datatype Op = Plus | Minus | Times(k: real) | Over(k: real) | Negate
  {
    /** Division by zero is outside the model. */
    predicate Defined() { Over? ==> k != 0.0 }
  }

  /** The value an elementwise macro writes at one entry, from `self`'s
      entry x and `other`'s entry y (scalar and negation macros ignore y). */
  function Apply(op: Op, x: real, y: real): real
    requires op.Defined()
  {
    match op
    case Plus => x + y
    case Minus => x - y
    case Times(k) => x * k
    case Over(k) => x / k
    case Negate => -x
  }

  /** The loops `for i in 0..rows { for j in 0..cols { .. self.data[i][j] .. } }`
      stay inside a matrix of a's shape. */
  predicate Fits(a: Mat, rows: nat, cols: nat) {
    rows <= a.M && cols <= a.N
  }

  /** What an elementwise macro returns: a fresh `Self::default()` with the
      rows×cols block written, every other entry still 0. */
  function MacroElementwise(op: Op, a: Mat, b: Mat, rows: nat, cols: nat): (r: Mat)
    requires op.Defined() && b.M == a.M && b.N == a.N
    ensures r.M == a.M && r.N == a.N
  {
    RawMat(a.M, a.N, seq(a.M, i requires 0 <= i < a.M => seq(a.N, j requires 0 <= j < a.N =>
      if i < rows && j < cols then Apply(op, a.data[i][j], b.data[i][j]) else 0.0)))
  }

  /** The expansion of an elementwise macro: nested loops over the given
      bounds writing `result.data[i][j]`, with b == a for the scalar and
      negation forms; a bound past a's shape panics at the first entry out of range. */
  method Elementwise(op: Op, a: Mat, b: Mat, rows: nat, cols: nat) returns (r: Result<Mat>)
    requires op.Defined() && b.M == a.M && b.N == a.N
    requires 1 <= rows && 1 <= cols
    ensures r.Panic? <==> !Fits(a, rows, cols)
    ensures r.Ok? <==> Fits(a, rows, cols)
    ensures r.Ok? ==> r.value == MacroElementwise(op, a, b, rows, cols)
  {
    var zero := New(a.M, a.N);
    ghost var target := MacroElementwise(op, a, b, rows, cols);
    var result := zero;
    for i := 0 to rows
      invariant result.M == a.M && result.N == a.N
      invariant i > 0 ==> i <= a.M && cols <= a.N
      invariant i <= a.M ==> Progress(result, target, zero, i, 0)
    {
      for j := 0 to cols
        invariant result.M == a.M && result.N == a.N
        invariant j > 0 ==> i < a.M && j <= a.N
        invariant i < a.M ==> Progress(result, target, zero, i, j)
      {
        if i >= a.M || j >= a.N {
          return Panic("index out of bounds");
        }
        result := Set(result, i, j, Apply(op, a.data[i][j], b.data[i][j]));
      }
    }
    Ext(result, target);
    r := Ok(result);
  }

  /** With the bounds equal to the shape, the elementwise macros compute the
      operators of the generic `Mat`. */
  lemma FullElementwise(a: Mat, b: Mat, k: real)
    requires b.M == a.M && b.N == a.N
    ensures MacroElementwise(Plus, a, b, a.M, a.N) == Sum(a, b)
    ensures MacroElementwise(Minus, a, b, a.M, a.N) == Difference(a, b)
    ensures MacroElementwise(Times(k), a, b, a.M, a.N) == Scaled(a, k)
    ensures MacroElementwise(Negate, a, b, a.M, a.N) == Negated(a)
    ensures k != 0.0 ==> MacroElementwise(Over(k), a, b, a.M, a.N) == Quotient(a, k)
  {
    Ext(MacroElementwise(Plus, a, b, a.M, a.N), Sum(a, b));
    Ext(MacroElementwise(Minus, a, b, a.M, a.N), Difference(a, b));
    Ext(MacroElementwise(Times(k), a, b, a.M, a.N), Scaled(a, k));
    Ext(MacroElementwise(Negate, a, b, a.M, a.N), Negated(a));
    if k != 0.0 {
      Ext(MacroElementwise(Over(k), a, b, a.M, a.N), Quotient(a, k));
    }
  }

  // ---------------------------------------------------------------------------
  // In-place macros (`impl_mat_ops_*_assign*`)
  // ---------------------------------------------------------------------------

  /** What an in-place macro leaves in `self`: the rows×cols block updated,
      every other entry as it was. */
  function MacroAssigned(op: Op, a: Mat, b: Mat, rows: nat, cols: nat): (r: Mat)
    requires op.Defined() && b.M == a.M && b.N == a.N
    ensures r.M == a.M && r.N == a.N
  {
    RawMat(a.M, a.N, seq(a.M, i requires 0 <= i < a.M => seq(a.N, j requires 0 <= j < a.N =>
      if i < rows && j < cols then Apply(op, a.data[i][j], b.data[i][j]) else a.data[i][j])))
  }

  /** The expansion of `impl_mat_ops_add_assign`, `impl_mat_ops_sub_assign`,
      `impl_mat_ops_mul_assign_number` and `impl_mat_ops_div_assign_number`:
      `self.data[i][j] op= other` in place, with b == self's value for the
      scalar forms. A bound past the shape panics part-way through. */
  method ElementwiseAssign(m: MatMut, op: Op, b: Mat, rows: nat, cols: nat) returns (r: Result<()>)
    requires op.Defined() && b.M == m.value.M && b.N == m.value.N
    requires 1 <= rows && 1 <= cols
    modifies m
    ensures r.Panic? <==> !Fits(old(m.value), rows, cols)
    ensures r.Ok? <==> Fits(old(m.value), rows, cols)
    ensures r.Ok? ==> m.value == MacroAssigned(op, old(m.value), b, rows, cols)
  {
    ghost var v0 := m.value;
    var M, N := m.value.M, m.value.N;
    ghost var target := MacroAssigned(op, v0, b, rows, cols);
    for i := 0 to rows
      invariant m.value.M == M && m.value.N == N
      invariant i > 0 ==> i <= M && cols <= N
      invariant i <= M ==> Progress(m.value, target, v0, i, 0)
    {
      for j := 0 to cols
        invariant m.value.M == M && m.value.N == N
        invariant j > 0 ==> i < M && j <= N
        invariant i < M ==> Progress(m.value, target, v0, i, j)
      {
        if i >= M || j >= N {
          return Panic("index out of bounds");
        }
        m.value := Set(m.value, i, j, Apply(op, m.value.data[i][j], b.data[i][j]));
      }
    }
    Ext(m.value, target);
    r := Ok(());
  }

  /** An in-place macro leaves in `self` what its binary counterpart returns
      on the rows×cols block; with the bounds equal to the shape the two agree
      everywhere. */
  lemma AssignAgreesWithBinary(op: Op, a: Mat, b: Mat, rows: nat, cols: nat)
    requires op.Defined() && b.M == a.M && b.N == a.N
    ensures forall i, j | 0 <= i < rows && 0 <= j < cols && i < a.M && j < a.N ::
      MacroAssigned(op, a, b, rows, cols).data[i][j] == MacroElementwise(op, a, b, rows, cols).data[i][j]
    ensures rows == a.M && cols == a.N ==> MacroAssigned(op, a, b, rows, cols) == MacroElementwise(op, a, b, rows, cols)
  {
    if rows == a.M && cols == a.N {
      Ext(MacroAssigned(op, a, b, rows, cols), MacroElementwise(op, a, b, rows, cols));
    }
  }

  // ---------------------------------------------------------------------------
  // impl_mat_mul_mat
  // ---------------------------------------------------------------------------

  /** Every index the triple loop of `impl_mat_mul_mat` touches is in range:
      `result.data[i][j]` (result of shape retM×retN), `self.data[i][k]` and
      `other.data[k][j]` for i < rows, j < cols2, k < cols. The macro's
      `$rows2` argument is never read. */
  predicate MulFits(a: Mat, b: Mat, rows: nat, cols: nat, cols2: nat, retM: nat, retN: nat) {
    rows <= a.M && rows <= retM && cols <= a.N && cols <= b.M && cols2 <= b.N && cols2 <= retN
  }

  /** What `impl_mat_mul_mat` returns: a fresh `<$retype>::default()` whose
      entry (i, j) with i < rows and j < cols2 is Σ_{k < cols} a[i][k]·b[k][j];
      every other entry is 0. */
  function MacroProduct(a: Mat, b: Mat, rows: nat, cols: nat, cols2: nat, retM: nat, retN: nat): (r: Mat)
    requires MulFits(a, b, rows, cols, cols2, retM, retN)
    ensures r.M == retM && r.N == retN
  {
    RawMat(retM, retN, seq(retM, i requires 0 <= i < retM => seq(retN, j requires 0 <= j < retN =>
      if i < rows && j < cols2 then Dot(a, b, i, j, cols) else 0.0)))
  }

  /** The expansion of `impl_mat_mul_mat`: a triple loop accumulating with `+=`. */
  method MulMat(a: Mat, b: Mat, rows: nat, cols: nat, cols2: nat, retM: nat, retN: nat) returns (r: Result<Mat>)
    requires 1 <= rows && 1 <= cols && 1 <= cols2
    ensures r.Panic? <==> !MulFits(a, b, rows, cols, cols2, retM, retN)
    ensures r.Ok? <==> MulFits(a, b, rows, cols, cols2, retM, retN)
    ensures r.Ok? ==> r.value == MacroProduct(a, b, rows, cols, cols2, retM, retN)
  {
    var result := New(retM, retN);
    for i := 0 to rows
      invariant result.M == retM && result.N == retN
      invariant i > 0 ==> i <= a.M && i <= retM && cols <= a.N && cols <= b.M && cols2 <= b.N && cols2 <= retN
      invariant forall p, q | 0 <= p < retM && 0 <= q < retN ::
        result.data[p][q] == (if p < i && q < cols2 && p < a.M && q < b.N && cols <= a.N && cols <= b.M
          then Dot(a, b, p, q, cols) else 0.0)
    {
      for j := 0 to cols2
        invariant result.M == retM && result.N == retN
        invariant i > 0 ==> i <= a.M && i <= retM && cols <= a.N && cols <= b.M && cols2 <= b.N && cols2 <= retN
        invariant j > 0 ==> i < a.M && i < retM && cols <= a.N && cols <= b.M && j <= b.N && j <= retN
        invariant forall p, q | 0 <= p < retM && 0 <= q < retN ::
          result.data[p][q] == (if (p < i || (p == i && q < j)) && q < cols2 && p < a.M && q < b.N && cols <= a.N && cols <= b.M
            then Dot(a, b, p, q, cols) else 0.0)
      {
        for k := 0 to cols
          invariant result.M == retM && result.N == retN
          invariant k > 0 ==> i < a.M && i < retM && k <= a.N && k <= b.M && j < b.N && j < retN
          invariant k > 0 ==> result.data[i][j] == Dot(a, b, i, j, k)
          invariant forall p, q | 0 <= p < retM && 0 <= q < retN && (p != i || q != j || k == 0) ::
            result.data[p][q] == (if (p < i || (p == i && q < j)) && q < cols2 && p < a.M && q < b.N && cols <= a.N && cols <= b.M
              then Dot(a, b, p, q, cols) else 0.0)
        {
          if i >= retM || j >= retN || i >= a.M || k >= a.N || k >= b.M || j >= b.N {
            return Panic("index out of bounds");
          }
          result := Set(result, i, j, result.data[i][j] + a.data[i][k] * b.data[k][j]);
        }
      }
    }
    Ext(result, MacroProduct(a, b, rows, cols, cols2, retM, retN));
    r := Ok(result);
  }

  /** With `$cols2` the right-hand column count and the result shaped
      rows×cols2, the macro is the matrix product; this covers the
      two-argument form `impl_mat_mul_mat!(T, n, n)`, a square type times itself. */
  lemma MacroProductIsProduct(a: Mat, b: Mat)
    requires a.N == b.M
    ensures MulFits(a, b, a.M, a.N, b.N, a.M, b.N)
    ensures MacroProduct(a, b, a.M, a.N, b.N, a.M, b.N) == Product(a, b)
  {
    Ext(MacroProduct(a, b, a.M, a.N, b.N, a.M, b.N), Product(a, b));
  }

  /** When the loop stops short of the result's columns (cols2 < retN), the
      columns from cols2 on stay 0 whatever the operands hold. */
  lemma MacroProductColumnsLeftZero(a: Mat, b: Mat, rows: nat, cols: nat, cols2: nat, retM: nat, retN: nat)
    requires MulFits(a, b, rows, cols, cols2, retM, retN)
    ensures forall i, j | 0 <= i < retM && cols2 <= j < retN :: MacroProduct(a, b, rows, cols, cols2, retM, retN).data[i][j] == 0.0
    ensures forall i, j | 0 <= i < rows && 0 <= j < cols2 ::
      MacroProduct(a, b, rows, cols, cols2, retM, retN).data[i][j] == Dot(a, b, i, j, cols)
  {
  }
}
